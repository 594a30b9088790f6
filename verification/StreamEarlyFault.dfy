/** Exactly which graphs can get stuck: those whose user code can raise while the last map stage still waits for
    the sink to subscribe.

    An error that reaches a map stage before its downstream has subscribed is not passed on: the stage stops and
    the subscription that follows goes to a stopped actor. Whether that can happen is a property of the graph.
 */
module StreamEarlyFault {
  import opened StreamStages
  import opened StreamGraph
  import opened StreamInvariant
  import opened StreamLinks
  import opened StreamRuns
  import opened StreamTheorems
  import opened StreamProgress

  // ----- How far the stages read ahead on their own -----

  /** How many inputs `xs` a stage orders until it has emitted `out` elements; past the end it keeps ordering. */
  function OrderFor(f: Elem -> Outcome, xs: seq<Elem>, out: nat): nat
    decreases |xs|
  {
    if out == 0 then 0
    else if xs == [] then out
    else 1 + OrderFor(f, xs[1..], out - |Out(f(xs[0]))|)
  }

  /** What map stage `i` orders while the last map stage has no downstream: enough to serve the stage below it
      and to fill its own prefetch. */
  function EarlyOrders(g: Graph, i: nat): nat
    requires 1 <= i <= |g.stages|
    decreases |g.stages| - i
  {
    if i == |g.stages| then 0
    else OrderFor(g.stages[i - 1].transform, Flow(g, i - 1), EarlyOrders(g, i + 1) + g.stages[i - 1].prefetch)
  }

  ghost predicate EarlyRaise(g: Graph, i: nat, k: nat)
    requires 1 <= i <= |g.stages|
  {
    k < EarlyOrders(g, i) && k < |Flow(g, i - 1)| && g.stages[i - 1].transform(Flow(g, i - 1)[k]).Raise?
  }

  /** The iterator ends with an error, or a transform raises, within what is read ahead. */
  ghost predicate EarlyFault(g: Graph) {
    && |g.stages| > 0
    && ((g.raises && EarlyOrders(g, 1) > |g.items|)
        || exists i: nat, k: nat :: 1 <= i <= |g.stages| && EarlyRaise(g, i, k))
  }

  lemma {:induction false} FilterMapCons(f: Elem -> Outcome, xs: seq<Elem>)
    requires xs != []
    ensures FilterMap(f, xs) == Out(f(xs[0])) + FilterMap(f, xs[1..])
  {
    assert xs == [xs[0]] + xs[1..];
    FilterMapConcat(f, [xs[0]], xs[1..]);
    assert FilterMap(f, [xs[0]]) == Out(f(xs[0]));
  }

  /** A stage never orders more than that. */
  lemma {:induction false} OrdersAtMost(f: Elem -> Outcome, xs: seq<Elem>, recv: seq<Elem>, ordered: nat, out: nat)
    requires recv <= xs && |FilterMap(f, recv)| + ordered <= out
    ensures |recv| + ordered <= OrderFor(f, xs, out) || (|FilterMap(f, recv)| == out && ordered == 0)
    decreases |xs|
  {
    if out > 0 && xs != [] {
      if recv == [] {
        OrderAtLeastOut(f, xs, out);
      } else {
        FilterMapCons(f, recv);
        OrdersAtMost(f, xs[1..], recv[1..], ordered, out - |Out(f(xs[0]))|);
      }
    }
  }

  lemma {:induction false} OrderAtLeastOut(f: Elem -> Outcome, xs: seq<Elem>, out: nat)
    ensures OrderFor(f, xs, out) >= out
    decreases |xs|
  {
    if out > 0 && xs != [] { OrderAtLeastOut(f, xs[1..], out - |Out(f(xs[0]))|); }
  }

  /** A stage that has emitted `out` elements has received at least that much. */
  lemma {:induction false} OrdersAtLeast(f: Elem -> Outcome, xs: seq<Elem>, recv: seq<Elem>, out: nat)
    requires recv <= xs && |FilterMap(f, recv)| >= out
    ensures |recv| >= OrderFor(f, xs, out)
    decreases |xs|
  {
    if out > 0 {
      assert recv != [];
      FilterMapCons(f, recv);
      OrdersAtLeast(f, xs[1..], recv[1..], out - |Out(f(xs[0]))|);
    }
  }

  // ----- Only an early fault leaves an orphan -----

  /** Some map stage from `i` on has no downstream yet. */
  ghost predicate Blocked(g: Graph, net: Net, i: nat)
    requires WellShaped(g, net)
  {
    exists j :: i <= j && 1 <= j <= |g.stages| && !net.actors[j].HasDown()
  }

  predicate HasFailed(a: Actor) {
    !a.Live() && !a.Completed()
  }

  /** Above a stage without downstream, no stage has read further ahead, and a failure was an early fault. */
  ghost predicate EarlyAt(g: Graph, net: Net, i: nat)
    requires WellShaped(g, net) && i <= |g.stages|
  {
    Blocked(g, net, i) ==>
      && (i >= 1 ==> |RecvOf(net, i)| + net.actors[i].Credit(g) <= EarlyOrders(g, i))
      && (HasFailed(net.actors[i]) ==> EarlyFault(g))
  }

  ghost predicate Early(g: Graph, net: Net)
    requires WellShaped(g, net)
  {
    forall i :: 0 <= i <= |g.stages| ==> EarlyAt(g, net, i)
  }

  /** What a running stage has emitted and on order is bounded by what the stage below has ordered. */
  lemma ReadAheadBound(g: Graph, net: Net, i: nat)
    requires WellShaped(g, net) && Inv(g, net) && 1 <= i < |g.stages| && net.actors[i].Live()
    ensures |FilterMap(g.stages[i - 1].transform, RecvOf(net, i))| + net.actors[i].Credit(g)
            <= |RecvOf(net, i + 1)| + net.actors[i + 1].Credit(g) + g.stages[i - 1].prefetch
  {
    hide Inv, FilterMap, UpInv, Target;
    ActorAt(g, net, i);
    LinkAt(g, net, i);
    PositiveUp(g, net, i);
  }

  lemma PositiveUp(g: Graph, net: Net, l: nat)
    requires WellShaped(g, net) && Inv(g, net) && l < |net.links| && net.actors[l].Live()
    ensures ReqSum(net.links[l].up) >= 0
  {
    LinkAt(g, net, l);
    ReqSumNonNegative(net.links[l].up);
  }

  lemma ReadAheadStep(g: Graph, net: Net, ev: Event)
    requires g.Valid() && WellShaped(g, net) && Inv(g, net) && Enabled(g, net, ev) && !ev.Kill?
    requires var i := Addressee(ev); 1 <= i <= |g.stages| && net.actors[i].Live()
    requires var i := Addressee(ev); var next := Step(g, net, ev);
             && Inv(g, next) && |RecvOf(net, i)| + net.actors[i].Credit(g) <= EarlyOrders(g, i)
             && next.actors[i].HasDown() && i < |g.stages|
             && |RecvOf(next, i + 1)| + next.actors[i + 1].Credit(g) <= EarlyOrders(g, i + 1)
    ensures var i := Addressee(ev); var next := Step(g, net, ev);
            |RecvOf(next, i)| + next.actors[i].Credit(g) <= EarlyOrders(g, i)
  {
    hide Inv, Step, React, ActorInv, DownEffect, ToUp, ToDown, ComesDown, ComesUp, Enabled, OrderFor, FilterMap;
    var i, m, next := Addressee(ev), Inbox(g, net, ev), Step(g, net, ev);
    DeliveryIsLocal(g, net, ev);
    AddresseeReacts(g, net, ev);
    var r := React(g, i, net.actors[i], m);
    assert |RecvOf(next, i)| == |RecvOf(net, i)| + |Received(m)|;
    if r.request > 0 {
      var f := g.stages[i - 1].transform;
      ReadAheadBound(g, next, i);
      SentIsPrefix(g, next, i - 1);
      assert next.actors[i].Credit(g) == net.actors[i].Credit(g) - |Received(m)| + r.request;
      OrdersAtMost(f, Flow(g, i - 1), RecvOf(next, i), next.actors[i].Credit(g),
                   EarlyOrders(g, i + 1) + g.stages[i - 1].prefetch);
      DeliveriesAreLegit(g, net, ev);
      assert next.actors[i].Credit(g) > 0;
    }
  }

  lemma ErrorComesFromFailed(g: Graph, p: Actor, k: Link, c: Actor)
    requires LinkInv(g, p, k, c) && k.down != [] && k.down[0] == Error
    ensures HasFailed(p)
  {
    hide UpInv, CreditInv;
  }

  lemma CancelComesFromFailed(g: Graph, net: Net, l: nat)
    requires WellShaped(g, net) && Inv(g, net) && l < |net.links| && net.actors[l].Live()
    requires net.links[l].up != [] && net.links[l].up[0] == Cancel
    ensures HasFailed(net.actors[l + 1]) && net.actors[l].HasDown()
  {
    LinkAt(g, net, l);
    ActorAt(g, net, l + 1);
    hide Inv, CreditInv, FilterMap;
  }

  lemma RaiseIsEarly(g: Graph, net: Net, ev: Event)
    requires g.Valid() && WellShaped(g, net) && Inv(g, net) && Enabled(g, net, ev) && ev.Down?
    requires 1 <= Addressee(ev) <= |g.stages| && net.actors[Addressee(ev)].Live()
    requires var i := Addressee(ev); |RecvOf(net, i)| + net.actors[i].Credit(g) <= EarlyOrders(g, i)
    requires var m := Inbox(g, net, ev); m.down.Next? && g.stages[ev.l].transform(m.down.elem).Raise?
    ensures EarlyFault(g)
  {
    hide Inv, LinkInv, EarlyOrders, Flow;
    var l := ev.l;
    LinkAt(g, net, l);
    SentIsPrefix(g, net, l);
    ElementIsFlow(g, net.actors[l], net.links[l], net.actors[l + 1], l);
    DeliveriesAreLegit(g, net, ev);
    assert EarlyRaise(g, l + 1, |net.links[l].recv|);
  }

  lemma SourceRaiseIsEarly(g: Graph, net: Net, ev: Event)
    requires g.Valid() && WellShaped(g, net) && Inv(g, net) && Enabled(g, net, ev) && ev == Up(0)
    requires |g.stages| > 0 && net.actors[0].Live() && g.raises
    requires |RecvOf(net, 1)| + net.actors[1].Credit(g) <= EarlyOrders(g, 1)
    requires Inbox(g, net, ev) != FromDown(Cancel)
    requires !React(g, 0, net.actors[0], Inbox(g, net, ev)).state.Live()
    ensures EarlyFault(g)
  {
    hide Inv, EarlyOrders;
    var k := net.links[0];
    ActorAt(g, net, 0);
    LinkAt(g, net, 0);
    assert k.up[0].Request? && ReqSum(k.up) == k.up[0].n + ReqSum(k.up[1..]);
    UpShapeTail(k.up, !net.actors[1].Live() && k.recv != [], !net.actors[0].HasDown());
    ReqSumNonNegative(k.up[1..]);
  }

  lemma FailureIsEarly(g: Graph, net: Net, ev: Event)
    requires g.Valid() && WellShaped(g, net) && Inv(g, net) && Early(g, net) && Enabled(g, net, ev) && !ev.Kill?
    requires Addressee(ev) <= |g.stages| && net.actors[Addressee(ev)].Live()
    requires var i := Addressee(ev); Blocked(g, net, i) && (net.actors[i].HasDown() ==> Blocked(g, net, i + 1))
    requires var i := Addressee(ev); HasFailed(React(g, i, net.actors[i], Inbox(g, net, ev)).state)
    ensures EarlyFault(g)
  {
    hide Inv, LinkInv, EarlyFault, EarlyOrders, React, Legit, ActorInv, CleanMsg;
    var i, m := Addressee(ev), Inbox(g, net, ev);
    assert EarlyAt(g, net, i);
    if m == FromUp(Error) {
      LinkAt(g, net, i - 1);
      ErrorComesFromFailed(g, net.actors[i - 1], net.links[i - 1], net.actors[i]);
      assert EarlyAt(g, net, i - 1) && Blocked(g, net, i - 1);
    } else if m == FromDown(Cancel) {
      CancelComesFromFailed(g, net, i);
      assert EarlyAt(g, net, i + 1);
    } else if i == 0 && g.raises {
      SourceFails(g, net, ev);
    } else {
      ActorAt(g, net, i);
      DeliveriesAreLegit(g, net, ev);
      if CleanMsg(g, i, net.actors[i], m) {
        CleanReaction(g, i, net.actors[i], m, RecvOf(net, i), SentOf(net, i));
      } else {
        NotCleanRaises(g, i, net.actors[i], m);
        RaiseIsEarly(g, net, ev);
      }
    }
  }

  lemma NotCleanRaises(g: Graph, i: nat, a: Actor, m: Msg)
    requires !CleanMsg(g, i, a, m) && m != FromUp(Error) && m != FromDown(Cancel)
    requires !a.SinkActor? && (a.MapActor? ==> 1 <= i <= |g.stages|)
    ensures m.FromUp? && m.down.Next? && a.MapActor? && g.stages[i - 1].transform(m.down.elem).Raise?
  {
  }

  lemma SourceFails(g: Graph, net: Net, ev: Event)
    requires g.Valid() && WellShaped(g, net) && Inv(g, net) && Early(g, net) && Enabled(g, net, ev) && !ev.Kill?
    requires Addressee(ev) == 0 && net.actors[0].Live() && Blocked(g, net, 0) && g.raises
    requires Inbox(g, net, ev) != FromDown(Cancel)
    requires HasFailed(React(g, 0, net.actors[0], Inbox(g, net, ev)).state)
    ensures EarlyFault(g)
  {
    hide Inv, EarlyFault, EarlyOrders, React;
    var j :| 1 <= j <= |g.stages| && !net.actors[j].HasDown();
    assert EarlyAt(g, net, 1) && Blocked(g, net, 1);
    SourceRaiseIsEarly(g, net, ev);
  }

  lemma StepKeepsEarlyAt(g: Graph, net: Net, ev: Event, j: nat)
    requires g.Valid() && WellShaped(g, net) && Inv(g, net) && AllAnnounced(g, net) && Early(g, net)
    requires Enabled(g, net, ev) && !ev.Kill? && j <= |g.stages|
    requires Inv(g, Step(g, net, ev)) && AllAnnounced(g, Step(g, net, ev))
    requires forall i: nat :: Blocked(g, Step(g, net, ev), i) ==> Blocked(g, net, i)
    ensures EarlyAt(g, Step(g, net, ev), j)
  {
    hide Inv, AllAnnounced, Step, React, Enabled, EarlyFault, EarlyOrders, Blocked, ComesDown, ComesUp,
         AsConsumer, AsProducer;
    var i, m, next := Addressee(ev), Inbox(g, net, ev), Step(g, net, ev);
    DeliveryIsLocal(g, net, ev);
    if Blocked(g, next, j) {
      assert EarlyAt(g, net, j);
      if i != j || !net.actors[i].Live() {
        ReceivedElsewhere(g, net, ev, j);
      } else {
        if HasFailed(next.actors[i]) {
          BlockedBelow(g, net, ev);
          FailureIsEarly(g, net, ev);
        }
        if i >= 1 {
          if next.actors[i].HasDown() {
            BlockedNext(g, next, i);
            assert EarlyAt(g, net, i + 1);
            ReceivedElsewhere(g, net, ev, i + 1);
            ReadAheadStep(g, net, ev);
          } else {
            NothingOrdered(g, next, i);
          }
        }
      }
    }
  }

  /** A delivery does not change what another stage, or a stopped one, has received. */
  lemma ReceivedElsewhere(g: Graph, net: Net, ev: Event, j: nat)
    requires WellShaped(g, net) && Enabled(g, net, ev) && !ev.Kill? && j < |net.actors|
    requires j != Addressee(ev) || !net.actors[j].Live()
    ensures RecvOf(Step(g, net, ev), j) == RecvOf(net, j) && Step(g, net, ev).actors[j] == net.actors[j]
  {
    hide Step, React, ToUp, ToDown;
    DeliveryIsLocal(g, net, ev);
  }

  lemma BlockedNext(g: Graph, net: Net, i: nat)
    requires WellShaped(g, net) && Blocked(g, net, i)
    requires i <= |g.stages| && (i == 0 || net.actors[i].HasDown())
    ensures Blocked(g, net, i + 1) && i < |g.stages|
  {
  }

  lemma BlockedBelow(g: Graph, net: Net, ev: Event)
    requires g.Valid() && WellShaped(g, net) && Inv(g, net) && Enabled(g, net, ev) && !ev.Kill?
    requires Addressee(ev) <= |g.stages|
    requires Blocked(g, Step(g, net, ev), Addressee(ev))
    requires forall i: nat :: Blocked(g, Step(g, net, ev), i) ==> Blocked(g, net, i)
    ensures net.actors[Addressee(ev)].HasDown() ==> Blocked(g, net, Addressee(ev) + 1)
  {
    hide Inv, Step, React, Enabled;
    if net.actors[Addressee(ev)].HasDown() { BlockedNext(g, net, Addressee(ev)); }
  }

  lemma NothingOrdered(g: Graph, net: Net, i: nat)
    requires WellShaped(g, net) && Inv(g, net) && AllAnnounced(g, net)
    requires 1 <= i <= |g.stages| && !net.actors[i].HasDown()
    ensures |RecvOf(net, i)| + net.actors[i].Credit(g) == 0
  {
    ActorAt(g, net, i);
    LinkAt(g, net, i - 1);
    assert Announced(net.actors[i - 1], net.links[i - 1], net.actors[i]);
    hide Inv, AllAnnounced, FilterMap;
  }

  lemma DownstreamIsKept(g: Graph, net: Net, ev: Event, i: nat)
    requires g.Valid() && WellShaped(g, net) && Inv(g, net) && Enabled(g, net, ev) && !ev.Kill?
    requires Blocked(g, Step(g, net, ev), i)
    ensures Blocked(g, net, i)
  {
    hide Inv, Step, React, Enabled, ActorInv, ComesDown, ComesUp, AsConsumer, AsProducer;
    var next := Step(g, net, ev);
    var j :| i <= j && 1 <= j <= |g.stages| && !next.actors[j].HasDown();
    DeliveryIsLocal(g, net, ev);
    if j == Addressee(ev) && net.actors[j].Live() { AddresseeReacts(g, net, ev); }
    assert !net.actors[j].HasDown();
  }

  lemma {:induction false} RunsKeepEarly(g: Graph, evs: seq<Event>, net: Net)
    requires g.Valid() && WellShaped(g, net) && Run(g, evs, net) && NoKill(evs)
    ensures Early(g, net)
  {
    hide Inv, AllAnnounced, Step, Enabled, EarlyAt, Blocked;
    if evs == [] {
      forall i | 0 <= i <= |g.stages| ensures EarlyAt(g, net, i) { EarlyInit(g, i); }
    } else {
      var n := |evs| - 1;
      var prev :| WellShaped(g, prev) && Run(g, evs[..n], prev)
                  && Enabled(g, prev, evs[n]) && net == Step(g, prev, evs[n]);
      RunsKeepEarly(g, evs[..n], prev);
      RunsKeepInv(g, evs[..n], prev);
      RunsKeepInv(g, evs, net);
      forall i: nat | Blocked(g, net, i) ensures Blocked(g, prev, i) { DownstreamIsKept(g, prev, evs[n], i); }
      forall i | 0 <= i <= |g.stages| ensures EarlyAt(g, net, i) { StepKeepsEarlyAt(g, prev, evs[n], i); }
    }
  }

  lemma EarlyInit(g: Graph, i: nat)
    requires g.Valid() && i <= |g.stages|
    ensures EarlyAt(g, Init(g), i)
  {
    hide EarlyOrders, EarlyFault;
  }

  lemma OrphanNeedsEarlyFault(g: Graph, evs: seq<Event>, net: Net)
    requires g.Valid() && WellShaped(g, net) && Run(g, evs, net) && NoKill(evs) && Orphaned(g, net)
    ensures EarlyFault(g)
  {
    hide Inv, AllAnnounced, Run, EarlyFault, EarlyOrders;
    RunsKeepEarly(g, evs, net);
    RunsKeepInv(g, evs, net);
    var i :| 1 <= i <= |g.stages| && Orphan(net.actors[i]);
    ActorAt(g, net, i);
    assert EarlyAt(g, net, i) && Blocked(g, net, i);
  }
}
