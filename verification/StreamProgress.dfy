/** A stream graph gets stuck only in one way, and otherwise every run ends with every stage stopped. */
module StreamProgress {
  import opened StreamStages
  import opened StreamGraph
  import opened StreamInvariant
  import opened StreamLinks
  import opened StreamRuns
  import opened StreamTheorems

  /** No message is in transit on the links below `n`. */
  ghost predicate Silent(net: Net, n: nat) {
    forall l :: 0 <= l < n && l < |net.links| ==>
      !net.links[l].wire && net.links[l].up == [] && net.links[l].down == []
  }

  ghost predicate Quiescent(net: Net) {
    Silent(net, |net.links|)
  }

  lemma QuiescentIffNothingEnabled(g: Graph, net: Net)
    requires WellShaped(g, net)
    ensures Quiescent(net) <==> forall ev: Event :: Enabled(g, net, ev) ==> ev.Kill?
  {
    if forall ev: Event :: Enabled(g, net, ev) ==> ev.Kill? {
      forall l: nat | l < |net.links|
        ensures !net.links[l].wire && net.links[l].up == [] && net.links[l].down == []
      {
        assert !Enabled(g, net, Wire(l)) && !Enabled(g, net, Up(l)) && !Enabled(g, net, Down(l));
      }
    }
  }

  /** Stopped before it learned of its downstream, which is therefore never told. */
  predicate Orphan(a: Actor) {
    a.MapActor? && !a.Live() && !a.HasDown()
  }

  ghost predicate Orphaned(g: Graph, net: Net)
    requires WellShaped(g, net)
  {
    exists i :: 1 <= i <= |g.stages| && Orphan(net.actors[i])
  }

  /** Facts about one link with nothing in transit. */
  lemma SilentLink(g: Graph, net: Net, l: nat)
    requires WellShaped(g, net) && Inv(g, net) && AllAnnounced(g, net) && l < |net.links| && Silent(net, l + 1)
    ensures var p := net.actors[l]; var c := net.actors[l + 1];
            && (c.Live() ==> c.HasUp())
            && (p.Live() && c.Live() ==> p.HasDown() && c.Credit(g) == p.Demand())
            && (!p.Live() && c.Live() ==> c.UpClosed() || (!p.HasDown() && !p.SourceActor?))
            && (!c.Live() ==> !p.Live())
            && (!p.HasDown() ==> c.Live())
            && (c.UpClosed() ==> p.Completed())
            && (c.Live() ==> net.links[l].sent == net.links[l].recv)
  {
    LinkAt(g, net, l);
    assert Announced(net.actors[l], net.links[l], net.actors[l + 1]);
    assert !net.links[l].wire && net.links[l].up == [] && net.links[l].down == [];
    hide Inv, AllAnnounced;
  }

  lemma StageOwes(g: Graph, net: Net, i: nat)
    requires g.Valid() && WellShaped(g, net) && Inv(g, net) && 1 <= i <= |g.stages|
    ensures var a := net.actors[i];
            a.Live() && a.HasUp() && a.Demand() > 0 ==> a.Credit(g) > 0 && !a.UpClosed()
  {
    ActorAt(g, net, i);
    hide Inv, FilterMap;
  }

  /** With nothing in transit above it, no running stage is owed anything. */
  lemma {:induction false} NobodyWaits(g: Graph, net: Net, l: nat)
    requires g.Valid() && WellShaped(g, net) && Inv(g, net) && AllAnnounced(g, net)
    requires l < |net.links| && Silent(net, l + 1) && !Orphaned(g, net)
    ensures var c := net.actors[l + 1]; !(c.Live() && c.Credit(g) > 0 && !c.UpClosed())
  {
    hide Inv, AllAnnounced;
    SilentLink(g, net, l);
    var p := net.actors[l];
    if l > 0 {
      assert !Orphan(p);
      if p.Live() && p.Demand() > 0 {
        SilentLink(g, net, l - 1);
        StageOwes(g, net, l);
        NobodyWaits(g, net, l - 1);
      }
    }
  }

  // ----- What a finished run looks like -----

  lemma SinkStops(g: Graph, net: Net)
    requires g.Valid() && WellShaped(g, net) && Inv(g, net) && AllAnnounced(g, net)
    requires Quiescent(net) && !Orphaned(g, net)
    ensures !net.actors[|g.stages| + 1].Live()
  {
    hide Inv, AllAnnounced, Orphaned;
    NobodyWaits(g, net, |g.stages|);
    SilentLink(g, net, |g.stages|);
  }

  /** If some stage has stopped, so has every stage above it. */
  lemma {:induction false} StopsReachUp(g: Graph, net: Net, i: nat, j: nat)
    requires WellShaped(g, net) && Inv(g, net) && AllAnnounced(g, net)
    requires i <= j < |net.actors| && Silent(net, j) && !net.actors[j].Live()
    ensures !net.actors[i].Live()
  {
    hide Inv, AllAnnounced;
    if i < j {
      SilentLink(g, net, j - 1);
      StopsReachUp(g, net, i, j - 1);
    }
  }

  /** An orphan leaves every stage below it running, the sink included. */
  lemma {:induction false} OrphanStrandsSink(g: Graph, net: Net, i: nat, j: nat)
    requires WellShaped(g, net) && Inv(g, net) && AllAnnounced(g, net) && Quiescent(net)
    requires 1 <= i < j < |net.actors| && Orphan(net.actors[i])
    ensures net.actors[j].Live()
  {
    hide Inv, AllAnnounced;
    SilentLink(g, net, j - 1);
    if i < j - 1 { OrphanStrandsSink(g, net, i, j - 1); }
  }

  /** An orphan exists only below another map stage: nothing reaches a first stage with no downstream. */
  lemma OrphansNeedTwoStages(g: Graph, net: Net)
    requires WellShaped(g, net) && Inv(g, net) && AllAnnounced(g, net) && Orphaned(g, net)
    ensures |g.stages| >= 2
  {
    var i :| 1 <= i <= |g.stages| && Orphan(net.actors[i]);
    LinkAt(g, net, i - 1);
    assert Announced(net.actors[i - 1], net.links[i - 1], net.actors[i]);
    hide Inv, AllAnnounced, LinkInv;
  }

  // ----- Graphs whose user code does not raise -----

  ghost predicate CleanLink(k: Link) {
    && (forall j :: 0 <= j < |k.down| ==> k.down[j] != Error)
    && (forall j :: 0 <= j < |k.up| ==> k.up[j] != Cancel)
  }

  ghost predicate CleanNet(g: Graph, net: Net)
    requires WellShaped(g, net)
  {
    NoneFailed(g, net) && forall l :: 0 <= l < |net.links| ==> CleanLink(net.links[l])
  }

  ghost predicate CleanMsg(g: Graph, i: nat, a: Actor, m: Msg) {
    && m != FromUp(Error) && m != FromDown(Cancel)
    && (m.FromUp? && m.down.Next? ==>
          && (a.MapActor? ==> 1 <= i <= |g.stages| && !g.stages[i - 1].transform(m.down.elem).Raise?)
          && (a.SinkActor? ==> g.accepts(m.down.elem)))
  }

  lemma CleanStage(g: Graph, i: nat, a: Actor, m: Msg, recv: seq<Elem>, sent: seq<Elem>)
    requires a.MapActor? && 1 <= i <= |g.stages|
    requires ActorInv(g, i, a, recv, sent) && Legit(g, a, m, sent) && a.Live() && CleanMsg(g, i, a, m)
    ensures var r := React(g, i, a, m);
            r.end != Fault && !r.cancel && (r.state.Live() || r.state.Completed())
  {
    hide FilterMap;
  }

  lemma CleanEnd(g: Graph, i: nat, a: Actor, m: Msg, recv: seq<Elem>, sent: seq<Elem>)
    requires !a.MapActor? && (a.SourceActor? ==> !g.raises)
    requires ActorInv(g, i, a, recv, sent) && Legit(g, a, m, sent) && a.Live() && CleanMsg(g, i, a, m)
    ensures var r := React(g, i, a, m);
            r.end != Fault && !r.cancel && (r.state.Live() || r.state.Completed())
  {
    hide FilterMap;
  }

  lemma CleanReaction(g: Graph, i: nat, a: Actor, m: Msg, recv: seq<Elem>, sent: seq<Elem>)
    requires a.MapActor? ==> 1 <= i <= |g.stages|
    requires ActorInv(g, i, a, recv, sent) && Legit(g, a, m, sent) && a.Live() && CleanMsg(g, i, a, m)
    requires a.SourceActor? ==> !g.raises
    ensures var r := React(g, i, a, m);
            r.end != Fault && !r.cancel && (r.state.Live() || r.state.Completed())
  {
    hide ActorInv, Legit, CleanMsg, React;
    if a.MapActor? { CleanStage(g, i, a, m, recv, sent); } else { CleanEnd(g, i, a, m, recv, sent); }
  }

  lemma NotFaultyAt(g: Graph, l: nat, k: nat)
    requires !Faulty(g) && l <= |g.stages| && k < |Flow(g, l)|
    ensures if l < |g.stages| then !g.stages[l].transform(Flow(g, l)[k]).Raise? else g.accepts(Flow(g, l)[k])
  {
    hide Flow;
  }

  lemma CleanDelivery(g: Graph, net: Net, ev: Event)
    requires g.Valid() && WellShaped(g, net) && Inv(g, net) && CleanNet(g, net) && !Faulty(g)
    requires Enabled(g, net, ev) && !ev.Kill? && net.actors[Addressee(ev)].Live()
    ensures CleanMsg(g, Addressee(ev), net.actors[Addressee(ev)], Inbox(g, net, ev))
  {
    hide Inv, Faulty, Flow, LinkInv;
    var l, m := ev.l, Inbox(g, net, ev);
    assert CleanLink(net.links[l]);
    if ev.Down? && m.down.Next? {
      LinkAt(g, net, l);
      SentIsPrefix(g, net, l);
      ElementIsFlow(g, net.actors[l], net.links[l], net.actors[l + 1], l);
      NotFaultyAt(g, l, |net.links[l].recv|);
    }
  }

  lemma ElementIsFlow(g: Graph, p: Actor, k: Link, c: Actor, l: nat)
    requires l <= |g.stages| && LinkInv(g, p, k, c) && c.Live() && k.sent <= Flow(g, l)
    requires k.down != [] && k.down[0].Next?
    ensures |k.recv| < |Flow(g, l)| && Flow(g, l)[|k.recv|] == k.down[0].elem
  {
    hide Composed, UpInv, CreditInv;
    assert k.sent[|k.recv|] == NextsOf(k.down)[0];
  }

  lemma CleanAppends(k: Link, r: Reaction<Actor>)
    requires CleanLink(k)
    ensures r.end != Fault ==> CleanLink(AsProducer(k, r))
    ensures !r.cancel ==> forall m :: CleanLink(AsConsumer(k, m, r))
  {
    assert forall j :: 0 <= j < |k.down + ToDown(r)| ==>
             (k.down + ToDown(r))[j] == if j < |k.down| then k.down[j] else ToDown(r)[j - |k.down|];
    assert forall j :: 0 <= j < |k.up + ToUp(r)| ==>
             (k.up + ToUp(r))[j] == if j < |k.up| then k.up[j] else ToUp(r)[j - |k.up|];
  }

  lemma StepKeepsClean(g: Graph, net: Net, ev: Event)
    requires g.Valid() && WellShaped(g, net) && Inv(g, net) && CleanNet(g, net) && !Faulty(g)
    requires Enabled(g, net, ev) && !ev.Kill?
    ensures CleanNet(g, Step(g, net, ev))
  {
    hide Inv, React, Step, ActorInv, Legit, AsConsumer, AsProducer, Faulty, CleanMsg;
    var i, m, next := Addressee(ev), Inbox(g, net, ev), Step(g, net, ev);
    DeliveryIsLocal(g, net, ev);
    if net.actors[i].Live() {
      CleanDelivery(g, net, ev);
      DeliveriesAreLegit(g, net, ev);
      ActorAt(g, net, i);
      assert !g.raises by { NotFaultyNotRaises(g); }
      CleanReaction(g, i, net.actors[i], m, RecvOf(net, i), SentOf(net, i));
      if i > 0 { CleanAppends(TakeDown(net.links[i - 1], m), React(g, i, net.actors[i], m)); }
      if i < |net.links| { CleanAppends(TakeUp(net.links[i], m), React(g, i, net.actors[i], m)); }
    }
  }

  lemma NotFaultyNotRaises(g: Graph)
    requires !Faulty(g)
    ensures !g.raises
  {
  }

  lemma {:induction false} RunsKeepClean(g: Graph, evs: seq<Event>, net: Net)
    requires g.Valid() && WellShaped(g, net) && Run(g, evs, net) && NoKill(evs) && !Faulty(g)
    ensures CleanNet(g, net)
  {
    if evs != [] {
      var n := |evs| - 1;
      var prev :| WellShaped(g, prev) && Run(g, evs[..n], prev)
                  && Enabled(g, prev, evs[n]) && net == Step(g, prev, evs[n]);
      RunsKeepClean(g, evs[..n], prev);
      RunsKeepInv(g, evs[..n], prev);
      StepKeepsClean(g, prev, evs[n]);
    }
  }

  // ----- The theorems -----

  /** A run that cannot go on has left no stage running, or an orphan; and an orphan strands the sink for good. */
  lemma StuckIffOrphaned(g: Graph, evs: seq<Event>, net: Net)
    requires g.Valid() && WellShaped(g, net) && Run(g, evs, net) && NoKill(evs) && Quiescent(net)
    ensures net.actors[|g.stages| + 1].Live() <==> Orphaned(g, net)
    ensures !Orphaned(g, net) ==> forall i :: 0 <= i < |net.actors| ==> !net.actors[i].Live()
    ensures Orphaned(g, net) ==> Faulty(g) && |g.stages| >= 2
  {
    hide Inv, AllAnnounced, Faulty, Run;
    RunsKeepInv(g, evs, net);
    if Orphaned(g, net) {
      OrphansNeedTwoStages(g, net);
      var i :| 1 <= i <= |g.stages| && Orphan(net.actors[i]);
      OrphanStrandsSink(g, net, i, |g.stages| + 1);
      if !Faulty(g) {
        RunsKeepClean(g, evs, net);
        ActorAt(g, net, i);
      }
    } else {
      SinkStops(g, net);
      forall i | 0 <= i < |net.actors| ensures !net.actors[i].Live() {
        StopsReachUp(g, net, i, |g.stages| + 1);
      }
    }
  }

  /** The outcome does not depend on the interleaving: a run that is not stuck ends with the composed map of the
      whole source if no user code raises on what reaches it, and with a failure otherwise. */
  lemma FinishedRunsAgree(g: Graph, evs: seq<Event>, net: Net)
    requires g.Valid() && WellShaped(g, net) && Run(g, evs, net) && NoKill(evs) && Quiescent(net)
    requires !Orphaned(g, net)
    ensures net.actors[|g.stages| + 1].sink.result
            == if Faulty(g) then Failed else Succeeded(Composed(g, |g.stages|, g.items))
  {
    hide Inv, AllAnnounced, Faulty, Run, Composed, Orphaned;
    RunsKeepInv(g, evs, net);
    StuckIffOrphaned(g, evs, net);
    SinkGetsComposedPrefix(g, evs, net);
    SinkNeverCancelled(g, net);
    if !Faulty(g) { RunsKeepClean(g, evs, net); }
  }

  lemma SinkNeverCancelled(g: Graph, net: Net)
    requires WellShaped(g, net) && Inv(g, net)
    ensures !net.actors[|g.stages| + 1].sink.result.Cancelled?
  {
    ActorAt(g, net, |g.stages| + 1);
  }

  /** Streams whose user code does not raise never get stuck: an uncompleted graph has a message in transit. */
  lemma NeverStuck(g: Graph, evs: seq<Event>, net: Net)
    requires g.Valid() && WellShaped(g, net) && Run(g, evs, net) && NoKill(evs) && !Faulty(g)
    ensures net.actors[|g.stages| + 1].sink.result == Succeeded(Composed(g, |g.stages|, g.items))
            || exists ev: Event :: !ev.Kill? && Enabled(g, net, ev)
  {
    hide Inv, Faulty, Run, Composed, Orphaned;
    QuiescentIffNothingEnabled(g, net);
    if Quiescent(net) {
      StuckIffOrphaned(g, evs, net);
      FinishedRunsAgree(g, evs, net);
    }
  }
}
