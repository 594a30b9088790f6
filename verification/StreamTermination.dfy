/** Every run of a stream graph ends, and what holds when it has. */
module StreamTermination {
  import opened StreamStages
  import opened StreamGraph
  import opened StreamInvariant
  import opened StreamRuns
  import opened StreamTheorems

  // ----- Every stage can send only so many messages -----

  ghost function UpBudget(g: Graph, i: nat, c: Actor, recv: seq<Elem>): int {
    if !c.Live() then 0 else
    match c
    case SourceActor(_) => 0
    case MapActor(s) =>
      (if s.hasUp then 0 else 1) + 1
      + (if s.upClosed || !(1 <= i <= |g.stages|) then 0
         else g.stages[i - 1].maxbuf - s.inFlight + |g.items| - |recv|)
    case SinkActor(s) => (if s.hasUp then 0 else 2) + 1 + |g.items| - |recv|
  }

  ghost function DownBudget(g: Graph, p: Actor, sent: seq<Elem>): int {
    if p.Live() then 1 + |g.items| - |sent| else 0
  }

  ghost function LinkRank(g: Graph, l: nat, p: Actor, k: Link, c: Actor): int {
    (if k.wire then 1 else 0) + |k.up| + |k.down| + DownBudget(g, p, k.sent) + UpBudget(g, l + 1, c, k.recv)
  }

  ghost function Rank(g: Graph, net: Net, n: nat): int
    requires WellShaped(g, net) && n <= |net.links|
  {
    if n == 0 then 0
    else Rank(g, net, n - 1) + LinkRank(g, n - 1, net.actors[n - 1], net.links[n - 1], net.actors[n])
  }

  lemma {:induction false} FlowBounded(g: Graph, l: nat)
    requires l <= |g.stages|
    ensures |Flow(g, l)| <= |g.items|
  {
    if l > 0 {
      FlowBounded(g, l - 1);
      FilterMapBounded(g.stages[l - 1].transform, Flow(g, l - 1));
    }
  }

  ghost predicate WithinItems(g: Graph, k: Link) {
    |k.sent| <= |g.items| && |k.recv| <= |g.items|
  }

  lemma LinksWithinItems(g: Graph, net: Net, l: nat)
    requires WellShaped(g, net) && Inv(g, net) && l < |net.links|
    ensures WithinItems(g, net.links[l])
  {
    SentIsPrefix(g, net, l);
    FlowBounded(g, l);
  }

  lemma UpIsPaid(g: Graph, i: nat, c: Actor, m: Msg, recv: seq<Elem>, sent: seq<Elem>)
    requires c.MapActor? ==> 1 <= i <= |g.stages|
    requires ReactionOk(g, i, c, m, React(g, i, c, m), recv, sent) && c.Live() && !c.SourceActor?
    requires ActorInv(g, i, c, recv, sent) && (m.SetUpstream? ==> !c.HasUp())
    requires |recv| + |Received(m)| <= |g.items|
    ensures var r := React(g, i, c, m);
            |ToUp(r)| + UpBudget(g, i, r.state, recv + Received(m)) <= UpBudget(g, i, c, recv)
  {
    hide StagePush, StagePull, FilterMap, Target;
    var r := React(g, i, c, m);
    assert |ToUp(r)| <= (if r.subscribe then 1 else 0) + (if r.request > 0 then 1 else 0) + (if r.cancel then 1 else 0);
    assert |recv + Received(m)| == |recv| + |Received(m)|;
    if c.MapActor? {
      hide React;
    }
  }

  lemma DownIsPaid(g: Graph, p: Actor, m: Msg, r: Reaction<Actor>, sent: seq<Elem>)
    requires DownEffect(p, m, r) && p.Live() && |sent| + |r.elems| <= |g.items|
    ensures |ToDown(r)| + DownBudget(g, r.state, sent + r.elems) <= DownBudget(g, p, sent)
  {
  }

  // ----- Every delivery lowers the rank -----

  lemma DeliveryLowersLink(g: Graph, net: Net, ev: Event, l: nat)
    requires g.Valid() && WellShaped(g, net) && Inv(g, net) && Enabled(g, net, ev) && !ev.Kill?
    requires l < |net.links| && Inv(g, Step(g, net, ev))
    ensures var next := Step(g, net, ev);
            LinkRank(g, l, next.actors[l], next.links[l], next.actors[l + 1])
            <= LinkRank(g, l, net.actors[l], net.links[l], net.actors[l + 1]) - (if l == ev.l then 1 else 0)
  {
    hide Inv, Step, React, ActorInv, UpEffect, DownEffect, UpBudget, DownBudget, ToUp, ToDown;
    var i, m, next := Addressee(ev), Inbox(g, net, ev), Step(g, net, ev);
    DeliveryIsLocal(g, net, ev);
    LinksWithinItems(g, next, l);
    if net.actors[i].Live() {
      AddresseeReacts(g, net, ev);
      ActorAt(g, net, i);
      DeliveriesAreLegit(g, net, ev);
      if l + 1 == i {
        UpIsPaid(g, i, net.actors[i], m, RecvOf(net, i), SentOf(net, i));
      } else if l == i {
        DownIsPaid(g, net.actors[i], m, React(g, i, net.actors[i], m), net.links[l].sent);
      }
    }
  }

  lemma StepLowersLink(g: Graph, net: Net, ev: Event, l: nat)
    requires g.Valid() && WellShaped(g, net) && Inv(g, net) && Enabled(g, net, ev)
    requires l < |net.links|
    ensures var next := Step(g, net, ev);
            LinkRank(g, l, next.actors[l], next.links[l], next.actors[l + 1])
            <= LinkRank(g, l, net.actors[l], net.links[l], net.actors[l + 1])
               - (if !ev.Kill? && ev.l == l then 1 else 0)
  {
    hide Inv, LinkRank, AllAnnounced, Step, Enabled;
    StepKeepsInv(g, net, ev);
    if ev.Kill? {
      KillLowersLink(g, net, ev, l);
    } else {
      DeliveryLowersLink(g, net, ev, l);
    }
  }

  lemma {:induction false} StepLowersRank(g: Graph, net: Net, ev: Event, n: nat)
    requires g.Valid() && WellShaped(g, net) && Inv(g, net) && Enabled(g, net, ev)
    requires n <= |net.links|
    ensures Rank(g, Step(g, net, ev), n) <= Rank(g, net, n) - (if !ev.Kill? && ev.l < n then 1 else 0)
  {
    hide Inv, LinkRank, Step, Enabled;
    if n > 0 {
      StepLowersRank(g, net, ev, n - 1);
      StepLowersLink(g, net, ev, n - 1);
    }
  }

  lemma DeliveriesLowerRank(g: Graph, net: Net, ev: Event)
    requires g.Valid() && WellShaped(g, net) && Inv(g, net) && Enabled(g, net, ev)
    ensures Rank(g, Step(g, net, ev), |net.links|) + (if ev.Kill? then 0 else 1) <= Rank(g, net, |net.links|)
  {
    hide Inv, Rank, Step;
    StepLowersRank(g, net, ev, |net.links|);
  }

  lemma BudgetsNonNegative(g: Graph, i: nat, a: Actor, recv: seq<Elem>, sent: seq<Elem>)
    requires ActorInv(g, i, a, recv, sent) && |recv| <= |g.items|
    ensures UpBudget(g, i, a, recv) >= 0 && UpBudget(g, i, Killed(a), recv) <= UpBudget(g, i, a, recv)
  {
    hide FilterMap, Target;
  }

  lemma KillLowersLink(g: Graph, net: Net, ev: Event, l: nat)
    requires g.Valid() && WellShaped(g, net) && Inv(g, net) && Enabled(g, net, ev) && ev.Kill?
    requires l < |net.links|
    ensures var next := Step(g, net, ev);
            LinkRank(g, l, next.actors[l], next.links[l], next.actors[l + 1])
            <= LinkRank(g, l, net.actors[l], net.links[l], net.actors[l + 1])
  {
    hide Inv, ActorInv, UpBudget;
    LinksWithinItems(g, net, l);
    ActorAt(g, net, l + 1);
    BudgetsNonNegative(g, l + 1, net.actors[l + 1], RecvOf(net, l + 1), SentOf(net, l + 1));
  }

  lemma {:induction false} RankNonNegative(g: Graph, net: Net, n: nat)
    requires WellShaped(g, net) && Inv(g, net) && n <= |net.links|
    ensures Rank(g, net, n) >= 0
  {
    if n > 0 {
      RankNonNegative(g, net, n - 1);
      LinksWithinItems(g, net, n - 1);
      ActorAt(g, net, n);
      hide Inv, ActorInv, UpBudget;
      BudgetsNonNegative(g, n, net.actors[n], RecvOf(net, n), SentOf(net, n));
    }
  }

  function Deliveries(evs: seq<Event>): nat {
    if evs == [] then 0
    else Deliveries(evs[..|evs| - 1]) + if evs[|evs| - 1].Kill? then 0 else 1
  }

  /** How many messages a graph can ever deliver. It depends on the graph alone. */
  ghost function DeliveryBound(g: Graph): int {
    Rank(g, Init(g), |g.stages| + 1)
  }

  /** Every run ends: whatever the interleaving, and whatever user code raises, no run delivers more messages
      than the bound of its graph. */
  lemma {:induction false} RunsAreBounded(g: Graph, evs: seq<Event>, net: Net)
    requires g.Valid() && WellShaped(g, net) && Run(g, evs, net)
    ensures Deliveries(evs) + Rank(g, net, |net.links|) <= DeliveryBound(g)
    ensures Deliveries(evs) <= DeliveryBound(g)
  {
    hide Inv, AllAnnounced, Step, Enabled, Rank, Init;
    RunsKeepInv(g, evs, net);
    RankNonNegative(g, net, |net.links|);
    if evs != [] {
      var n := |evs| - 1;
      var prev :| WellShaped(g, prev) && Run(g, evs[..n], prev)
                  && Enabled(g, prev, evs[n]) && net == Step(g, prev, evs[n]);
      RunsAreBounded(g, evs[..n], prev);
      RunsKeepInv(g, evs[..n], prev);
      DeliveriesLowerRank(g, prev, evs[n]);
    }
  }
}
