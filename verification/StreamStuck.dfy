/** The other direction: a graph with an early fault has a run that strands its sink. */
module StreamStuck {
  import opened StreamStages
  import opened StreamGraph
  import opened StreamInvariant
  import opened StreamRuns
  import opened StreamTheorems
  import opened StreamTermination
  import opened StreamProgress
  import opened StreamEarlyFault

  /** Deliver messages until none is left, or none but the wiring of the sink when that is held back. */
  lemma Drain(g: Graph, evs: seq<Event>, net: Net, hold: bool) returns (evs': seq<Event>, net': Net)
    requires g.Valid() && WellShaped(g, net) && Run(g, evs, net) && NoKill(evs)
    requires hold ==> net.links[|g.stages|].wire
    ensures WellShaped(g, net') && Run(g, evs', net') && NoKill(evs')
    ensures if hold then Silent(net', |g.stages|) && net'.links[|g.stages|].wire else Quiescent(net')
    ensures forall i :: 0 <= i < |net.actors| && Orphan(net.actors[i]) ==> Orphan(net'.actors[i])
    decreases Rank(g, net, |net.links|)
  {
    hide Inv, AllAnnounced, Step, Rank, Run, Enabled, Orphan;
    var n := |g.stages|;
    if ev :| Enabled(g, net, ev) && !ev.Kill? && (hold ==> ev != Wire(n)) {
      DrainsOne(g, evs, net, ev);
      OrphansAndWire(g, net, ev);
      evs', net' := Drain(g, evs + [ev], Step(g, net, ev), hold);
    } else {
      evs', net' := evs, net;
      NothingLeft(g, net, hold);
    }
  }

  /** One more delivery. */
  lemma DrainsOne(g: Graph, evs: seq<Event>, net: Net, ev: Event)
    requires g.Valid() && WellShaped(g, net) && Run(g, evs, net) && NoKill(evs) && Enabled(g, net, ev) && !ev.Kill?
    ensures var next := Step(g, net, ev);
            && Run(g, evs + [ev], next) && NoKill(evs + [ev])
            && 0 <= Rank(g, next, |next.links|) < Rank(g, net, |net.links|)
  {
    hide Inv, AllAnnounced, Step, Rank;
    var next := Step(g, net, ev);
    assert (evs + [ev])[..|evs + [ev]| - 1] == evs;
    assert Run(g, evs + [ev], next);
    RunsKeepInv(g, evs, net);
    RunsKeepInv(g, evs + [ev], next);
    DeliveriesLowerRank(g, net, ev);
    RankNonNegative(g, next, |next.links|);
  }

  lemma NothingLeft(g: Graph, net: Net, hold: bool)
    requires WellShaped(g, net)
    requires forall ev: Event :: Enabled(g, net, ev) ==> ev.Kill? || (hold && ev == Wire(|g.stages|))
    ensures Silent(net, if hold then |g.stages| else |net.links|)
  {
    forall l: nat | l < (if hold then |g.stages| else |net.links|)
      ensures !net.links[l].wire && net.links[l].up == [] && net.links[l].down == []
    {
      assert !Enabled(g, net, Wire(l)) && !Enabled(g, net, Up(l)) && !Enabled(g, net, Down(l));
    }
  }

  lemma OrphansAndWire(g: Graph, net: Net, ev: Event)
    requires WellShaped(g, net) && Enabled(g, net, ev) && !ev.Kill?
    ensures var next := Step(g, net, ev); var n := |g.stages|;
            && (forall i :: 0 <= i < |net.actors| && Orphan(net.actors[i]) ==> Orphan(next.actors[i]))
            && (ev != Wire(n) ==> next.links[n].wire == net.links[n].wire)
  {
    hide Step, React, ToUp, ToDown;
    DeliveryIsLocal(g, net, ev);
  }

  // ----- While the sink is held back -----

  ghost predicate Held(g: Graph, net: Net)
    requires WellShaped(g, net)
  {
    && g.Valid() && |g.stages| > 0 && Inv(g, net) && AllAnnounced(g, net)
    && Silent(net, |g.stages|) && net.links[|g.stages|].wire && !Orphaned(g, net)
  }

  lemma LastHasNoDown(g: Graph, net: Net)
    requires WellShaped(g, net) && Held(g, net)
    ensures !net.actors[|g.stages|].HasDown()
  {
    LinkAt(g, net, |g.stages|);
    hide Inv, AllAnnounced;
  }

  /** A failure anywhere would have reached the last map stage. */
  lemma {:induction false} NobodyFailed(g: Graph, net: Net, i: nat)
    requires WellShaped(g, net) && Held(g, net) && i <= |g.stages|
    ensures !HasFailed(net.actors[i])
    decreases |g.stages| - i
  {
    hide Inv, AllAnnounced;
    LastHasNoDown(g, net);
    assert i > 0 ==> !Orphan(net.actors[i]);
    if i < |g.stages| {
      SilentLink(g, net, i);
      CompletedIsUpClosed(g, net, i + 1);
      NobodyFailed(g, net, i + 1);
    }
  }

  lemma CompletedIsUpClosed(g: Graph, net: Net, i: nat)
    requires WellShaped(g, net) && Inv(g, net) && 1 <= i < |net.actors|
    ensures net.actors[i].Completed() ==> net.actors[i].UpClosed()
  {
    ActorAt(g, net, i);
    hide Inv, FilterMap;
  }

  lemma ClosedHasAll(g: Graph, net: Net, i: nat)
    requires WellShaped(g, net) && Inv(g, net) && 1 <= i <= |g.stages| && net.actors[i].UpClosed()
    ensures RecvOf(net, i) == Flow(g, i - 1) && !g.raises
  {
    LinkAt(g, net, i - 1);
    CompletedSentAll(g, net, i - 1);
    hide Inv;
  }

  /** A running stage above the held one has filled its prefetch. */
  lemma HasReadAhead(g: Graph, net: Net, i: nat)
    requires WellShaped(g, net) && Held(g, net) && 1 <= i < |g.stages|
    requires net.actors[i].Live() && !net.actors[i].UpClosed()
    ensures |FilterMap(g.stages[i - 1].transform, RecvOf(net, i))| >= |RecvOf(net, i + 1)| + g.stages[i - 1].prefetch
  {
    hide Inv, AllAnnounced, FilterMap, LinkInv, Orphaned;
    SilentLink(g, net, i - 1);
    SilentLink(g, net, i);
    NobodyWaits(g, net, i - 1);
    NobodyWaits(g, net, i);
    NobodyFailed(g, net, i + 1);
    ActorAt(g, net, i);
    assert net.actors[i + 1].Live();
    CompletedStops(g, net, i);
    assert !net.actors[i + 1].UpClosed();
    assert net.actors[i].Demand() == 0 && net.actors[i].Credit(g) == 0;
  }

  lemma CompletedStops(g: Graph, net: Net, i: nat)
    requires WellShaped(g, net) && Inv(g, net) && i < |net.links|
    ensures net.actors[i].Completed() ==> !net.actors[i].Live()
  {
    LinkAt(g, net, i);
  }

  /** Every stage has received all it orders on its own, or its upstream has ended. */
  lemma {:induction false} ReadsAhead(g: Graph, net: Net, i: nat)
    requires WellShaped(g, net) && Held(g, net) && 1 <= i <= |g.stages|
    ensures net.actors[i].UpClosed() || |RecvOf(net, i)| >= EarlyOrders(g, i)
    decreases |g.stages| - i
  {
    hide Inv, AllAnnounced, FilterMap, OrderFor, Orphaned, Flow;
    if i < |g.stages| && !net.actors[i].UpClosed() {
      NobodyFailed(g, net, i);
      CompletedIsUpClosed(g, net, i);
      HasReadAhead(g, net, i);
      ReadsAhead(g, net, i + 1);
      if net.actors[i + 1].UpClosed() {
        SilentLink(g, net, i);
        CompletedIsUpClosed(g, net, i);
      } else {
        SentIsPrefix(g, net, i - 1);
        OrdersAtLeast(g.stages[i - 1].transform, Flow(g, i - 1), RecvOf(net, i),
                      EarlyOrders(g, i + 1) + g.stages[i - 1].prefetch);
      }
    }
  }

  lemma NoneRaisedYet(g: Graph, net: Net, i: nat)
    requires WellShaped(g, net) && Held(g, net) && 1 <= i <= |g.stages|
    ensures NoneRaises(g.stages[i - 1].transform, RecvOf(net, i))
  {
    hide Inv, AllAnnounced, FilterMap, Orphaned;
    NobodyFailed(g, net, i);
    ActorAt(g, net, i);
  }

  lemma NothingEarly(g: Graph, net: Net)
    requires WellShaped(g, net) && Held(g, net)
    ensures !EarlyFault(g)
  {
    hide Inv, AllAnnounced, EarlyOrders, Flow, Orphaned, Held;
    forall i: nat, k: nat | 1 <= i <= |g.stages| ensures !EarlyRaise(g, i, k) {
      NotEarlyRaise(g, net, i, k);
    }
    NotEarlySource(g, net);
  }

  lemma NotEarlyRaise(g: Graph, net: Net, i: nat, k: nat)
    requires WellShaped(g, net) && Held(g, net) && 1 <= i <= |g.stages|
    ensures !EarlyRaise(g, i, k)
  {
    hide Inv, AllAnnounced, EarlyOrders, Orphaned;
    ReadsAhead(g, net, i);
    NoneRaisedYet(g, net, i);
    SentIsPrefix(g, net, i - 1);
    if net.actors[i].UpClosed() { ClosedHasAll(g, net, i); }
    assert forall j :: 0 <= j < |RecvOf(net, i)| ==> RecvOf(net, i)[j] == Flow(g, i - 1)[j];
  }

  lemma NotEarlySource(g: Graph, net: Net)
    requires WellShaped(g, net) && Held(g, net)
    ensures !(g.raises && EarlyOrders(g, 1) > |g.items|)
  {
    hide Inv, AllAnnounced, EarlyOrders, Orphaned;
    ReadsAhead(g, net, 1);
    SentIsPrefix(g, net, 0);
    if net.actors[1].UpClosed() { ClosedHasAll(g, net, 1); }
  }

  // ----- The theorem -----

  /** Held back and drained, an early fault leaves an orphan, and so does draining the rest. */
  lemma EarlyFaultStrandsSink(g: Graph) returns (evs: seq<Event>, net: Net)
    requires g.Valid() && EarlyFault(g)
    ensures WellShaped(g, net) && Run(g, evs, net) && NoKill(evs) && Quiescent(net)
    ensures net.actors[|g.stages| + 1].sink.result.Open?
  {
    hide Inv, AllAnnounced, EarlyFault;
    assert |g.stages| > 0 by { EarlyFaultHasStages(g); }
    assert Run(g, [], Init(g));
    var evs1, net1 := Drain(g, [], Init(g), true);
    RunsKeepInv(g, evs1, net1);
    if !Orphaned(g, net1) { NothingEarly(g, net1); }
    var i :| 1 <= i <= |g.stages| && Orphan(net1.actors[i]);
    evs, net := Drain(g, evs1, net1, false);
    assert Orphan(net.actors[i]);
    StuckIffOrphaned(g, evs, net);
  }

  lemma EarlyFaultHasStages(g: Graph)
    requires EarlyFault(g)
    ensures |g.stages| > 0
  {
  }

  ghost predicate EndsClosed(g: Graph, evs: seq<Event>, net: Net)
    requires WellShaped(g, net)
  {
    Run(g, evs, net) && NoKill(evs) && Quiescent(net) ==> !net.actors[|g.stages| + 1].sink.result.Open?
  }

  /** Every finished run closes its sink exactly when the graph has no early fault. A graph with fewer than two
      map stages has none. */
  lemma SinkAlwaysClosesIff(g: Graph)
    requires g.Valid()
    ensures (forall evs, net | WellShaped(g, net) :: EndsClosed(g, evs, net)) <==> !EarlyFault(g)
    ensures |g.stages| < 2 ==> !EarlyFault(g)
  {
    hide EarlyFault, Run, Quiescent, Orphaned;
    if EarlyFault(g) {
      var evs, net := EarlyFaultStrandsSink(g);
      assert !EndsClosed(g, evs, net);
      StrandedNeedsTwo(g, evs, net);
    } else {
      forall evs, net | WellShaped(g, net) ensures EndsClosed(g, evs, net) {
        if Run(g, evs, net) && NoKill(evs) && Quiescent(net) {
          StuckIffOrphaned(g, evs, net);
          if Orphaned(g, net) { OrphanNeedsEarlyFault(g, evs, net); }
        }
      }
    }
  }

  lemma StrandedNeedsTwo(g: Graph, evs: seq<Event>, net: Net)
    requires g.Valid() && WellShaped(g, net) && Run(g, evs, net) && NoKill(evs) && Quiescent(net)
    requires net.actors[|g.stages| + 1].sink.result.Open?
    ensures |g.stages| >= 2
  {
    hide Run, Quiescent, Orphaned;
    StuckIffOrphaned(g, evs, net);
  }

  /** The smallest such graph, with the default sizes: an iterator that raises at once, behind two map stages. */
  lemma RaisingIteratorStrandsSink(f: Elem -> Outcome) returns (g: Graph, evs: seq<Event>, net: Net)
    ensures g == Graph([], true, [StageCfg(f, 16, 256), StageCfg(f, 16, 256)], _ => true, 16)
    ensures g.Valid() && WellShaped(g, net) && Run(g, evs, net) && NoKill(evs) && Quiescent(net)
    ensures net.actors[3].sink.result.Open?
  {
    g := Graph([], true, [StageCfg(f, 16, 256), StageCfg(f, 16, 256)], _ => true, 16);
    assert EarlyOrders(g, 2) == 0 && EarlyOrders(g, 1) == OrderFor(f, [], 16) == 16;
    evs, net := EarlyFaultStrandsSink(g);
  }
}
