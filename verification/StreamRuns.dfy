/** Every reachable state of a stream graph satisfies the invariant of its stages and links. */
module StreamRuns {
  import opened StreamStages
  import opened StreamGraph
  import opened StreamInvariant
  import opened StreamLinks

  // ----- What a delivery changes -----

  ghost function Inbox(g: Graph, net: Net, ev: Event): Msg
    requires WellShaped(g, net) && Enabled(g, net, ev) && !ev.Kill?
  {
    match ev
    case Wire(_) => SetUpstream
    case Down(l) => FromUp(net.links[l].down[0])
    case Up(l) => FromDown(net.links[l].up[0])
  }

  ghost function LinkAbove(g: Graph, net: Net, i: nat, m: Msg): Link
    requires WellShaped(g, net) && 1 <= i < |net.actors|
  {
    var k := TakeDown(net.links[i - 1], m);
    if net.actors[i].Live() then AsConsumer(k, m, React(g, i, net.actors[i], m)) else k
  }

  ghost function LinkBelow(g: Graph, net: Net, i: nat, m: Msg): Link
    requires WellShaped(g, net) && i < |net.links|
  {
    var k := TakeUp(net.links[i], m);
    if net.actors[i].Live() then AsProducer(k, React(g, i, net.actors[i], m)) else k
  }

  /** A delivery changes its addressee and the links on its two sides, and nothing else. */
  lemma DeliveryIsLocal(g: Graph, net: Net, ev: Event)
    requires WellShaped(g, net) && Enabled(g, net, ev) && !ev.Kill?
    ensures var i := Addressee(ev); var m := Inbox(g, net, ev); var next := Step(g, net, ev);
            && i < |net.actors|
            && (i > 0 ==> ComesDown(net.links[i - 1], m) && next.links[i - 1] == LinkAbove(g, net, i, m))
            && (i < |net.links| ==> ComesUp(net.links[i], m) && next.links[i] == LinkBelow(g, net, i, m))
            && (forall l :: 0 <= l < |net.links| && l != i && l != i - 1 ==> next.links[l] == net.links[l])
            && next.actors == net.actors[i := if net.actors[i].Live() then React(g, i, net.actors[i], m).state
                                              else net.actors[i]]
            && (ev.Up? ==> i < |net.links|) && (!ev.Up? ==> i > 0)
  {
    hide React, AsConsumer, AsProducer;
  }

  // ----- The invariant is kept -----

  lemma LinkAt(g: Graph, net: Net, l: nat)
    requires WellShaped(g, net) && Inv(g, net) && l < |net.links|
    ensures LinkInv(g, net.actors[l], net.links[l], net.actors[l + 1])
  {
  }

  lemma ActorAt(g: Graph, net: Net, i: nat)
    requires WellShaped(g, net) && Inv(g, net) && i < |net.actors|
    ensures ActorInv(g, i, net.actors[i], RecvOf(net, i), SentOf(net, i))
  {
  }

  lemma LegitFromAbove(g: Graph, p: Actor, k: Link, c: Actor, m: Msg)
    requires LinkInv(g, p, k, c) && c.Live() && !c.SourceActor? && ComesDown(k, m) && !m.FromDown?
    ensures forall sent :: Legit(g, c, m, sent)
  {
    hide UpShape, ReqSum;
  }

  lemma LegitFromBelow(g: Graph, p: Actor, k: Link, c: Actor, m: Msg)
    requires LinkInv(g, p, k, c) && p.Live() && !p.SinkActor? && ComesUp(k, m) && m.FromDown?
    ensures Legit(g, p, m, k.sent)
  {
    hide NextsOf, CreditInv;
    assert k.up[0] == m.up;
  }

  /** The links guarantee that a live stage is handed only messages it is prepared for. */
  lemma DeliveriesAreLegit(g: Graph, net: Net, ev: Event)
    requires WellShaped(g, net) && Inv(g, net) && Enabled(g, net, ev) && !ev.Kill?
    requires net.actors[Addressee(ev)].Live()
    ensures var i := Addressee(ev); Legit(g, net.actors[i], Inbox(g, net, ev), SentOf(net, i))
  {
    hide Inv, LinkInv, Legit;
    var m := Inbox(g, net, ev);
    var l := ev.l;
    LinkAt(g, net, l);
    if ev.Up? {
      LegitFromBelow(g, net.actors[l], net.links[l], net.actors[l + 1], m);
    } else {
      LegitFromAbove(g, net.actors[l], net.links[l], net.actors[l + 1], m);
    }
  }

  lemma AddresseeReacts(g: Graph, net: Net, ev: Event)
    requires g.Valid() && WellShaped(g, net) && Inv(g, net) && Enabled(g, net, ev) && !ev.Kill?
    requires net.actors[Addressee(ev)].Live()
    ensures var i := Addressee(ev); var m := Inbox(g, net, ev);
            ReactionOk(g, i, net.actors[i], m, React(g, i, net.actors[i], m), RecvOf(net, i), SentOf(net, i))
  {
    hide Inv, ReactionOk, React, Legit;
    var i, m := Addressee(ev), Inbox(g, net, ev);
    DeliveriesAreLegit(g, net, ev);
    ActorAt(g, net, i);
    match net.actors[i]
    case SourceActor(s) => SourceReacts(g, i, s, m, SentOf(net, i));
    case MapActor(s) => StageReacts(g, i, s, m, RecvOf(net, i), SentOf(net, i));
    case SinkActor(s) => SinkReacts(g, i, s, m, RecvOf(net, i));
  }

  lemma AboveKeeps(g: Graph, net: Net, ev: Event)
    requires g.Valid() && WellShaped(g, net) && Inv(g, net) && Enabled(g, net, ev) && !ev.Kill?
    requires 1 <= Addressee(ev)
    ensures var next := Step(g, net, ev); var l := Addressee(ev) - 1;
            && LinkInv(g, next.actors[l], next.links[l], next.actors[l + 1])
            && (Announced(net.actors[l], net.links[l], net.actors[l + 1])
                ==> Announced(next.actors[l], next.links[l], next.actors[l + 1]))
  {
    hide LinkInv, Announced, React, Step, UpEffect, DownEffect, ActorInv, AsConsumer, AsProducer, TakeDown, TakeUp,
         ComesDown, ComesUp, Inv;
    var i, m := Addressee(ev), Inbox(g, net, ev);
    DeliveryIsLocal(g, net, ev);
    LinkAt(g, net, i - 1);
    var p, k, c := net.actors[i - 1], net.links[i - 1], net.actors[i];
    if c.Live() {
      AddresseeReacts(g, net, ev);
      ConsumerStep(g, p, k, c, m, React(g, i, c, m));
    } else {
      DiscardDown(g, p, k, c, m);
    }
  }

  lemma BelowKeeps(g: Graph, net: Net, ev: Event)
    requires g.Valid() && WellShaped(g, net) && Inv(g, net) && Enabled(g, net, ev) && !ev.Kill?
    requires Addressee(ev) < |net.links|
    ensures var next := Step(g, net, ev); var l := Addressee(ev);
            && LinkInv(g, next.actors[l], next.links[l], next.actors[l + 1])
            && (Announced(net.actors[l], net.links[l], net.actors[l + 1])
                ==> Announced(next.actors[l], next.links[l], next.actors[l + 1]))
  {
    hide LinkInv, Announced, React, Step, UpEffect, DownEffect, ActorInv, AsConsumer, AsProducer, TakeDown, TakeUp,
         ComesDown, ComesUp, Inv;
    var i, m := Addressee(ev), Inbox(g, net, ev);
    DeliveryIsLocal(g, net, ev);
    LinkAt(g, net, i);
    var p, k, c := net.actors[i], net.links[i], net.actors[i + 1];
    if p.Live() {
      AddresseeReacts(g, net, ev);
      ProducerStep(g, p, k, c, m, React(g, i, p, m));
    } else {
      DiscardUp(g, p, k, c, m);
    }
  }

  lemma DeliveryKeepsLinks(g: Graph, net: Net, ev: Event, l: nat)
    requires g.Valid() && WellShaped(g, net) && Inv(g, net) && Enabled(g, net, ev) && !ev.Kill?
    requires l < |net.links|
    ensures var next := Step(g, net, ev);
            && LinkInv(g, next.actors[l], next.links[l], next.actors[l + 1])
            && (Announced(net.actors[l], net.links[l], net.actors[l + 1])
                ==> Announced(next.actors[l], next.links[l], next.actors[l + 1]))
  {
    hide LinkInv, Announced, React, Step, LinkAbove, LinkBelow, ComesDown, ComesUp, Inv;
    if l + 1 == Addressee(ev) {
      AboveKeeps(g, net, ev);
    } else if l == Addressee(ev) {
      BelowKeeps(g, net, ev);
    } else {
      DeliveryIsLocal(g, net, ev);
      LinkAt(g, net, l);
    }
  }

  lemma DeliveryKeepsActors(g: Graph, net: Net, ev: Event, j: nat)
    requires g.Valid() && WellShaped(g, net) && Inv(g, net) && Enabled(g, net, ev) && !ev.Kill?
    requires j < |net.actors|
    ensures var next := Step(g, net, ev); ActorInv(g, j, next.actors[j], RecvOf(next, j), SentOf(next, j))
  {
    hide React, Step, UpEffect, DownEffect, ActorInv, ToUp, ToDown, ComesDown, ComesUp, Inv;
    var i, m, next := Addressee(ev), Inbox(g, net, ev), Step(g, net, ev);
    DeliveryIsLocal(g, net, ev);
    ActorAt(g, net, j);
    if j == i && net.actors[i].Live() {
      AddresseeReacts(g, net, ev);
      assert RecvOf(next, i) == RecvOf(net, i) + Received(m);
      if i == |net.links| { SinkSendsNothing(g, i, net.actors[i], m); }
      assert SentOf(next, i) == SentOf(net, i) + React(g, i, net.actors[i], m).elems;
    }
  }

  lemma SinkSendsNothing(g: Graph, i: nat, a: Actor, m: Msg)
    requires a.SinkActor?
    ensures React(g, i, a, m).elems == []
  {
  }

  lemma KilledKeepsActor(g: Graph, i: nat, a: Actor, recv: seq<Elem>, sent: seq<Elem>)
    requires ActorInv(g, i, a, recv, sent)
    ensures ActorInv(g, i, Killed(a), recv, sent)
  {
    hide FilterMap;
  }

  lemma KillKeepsInv(g: Graph, net: Net, ev: Event)
    requires WellShaped(g, net) && Inv(g, net) && Enabled(g, net, ev) && ev.Kill?
    ensures Inv(g, Step(g, net, ev))
  {
    hide LinkInv, ActorInv, Killed;
    var next := Step(g, net, ev);
    assert next.actors == net.actors[ev.i := Killed(net.actors[ev.i])] && next.links == net.links;
    forall l | 0 <= l < |net.links| ensures LinkInv(g, next.actors[l], next.links[l], next.actors[l + 1]) {
      LinkAt(g, net, l);
      KillProducer(g, net.actors[l], net.links[l], net.actors[l + 1]);
      KillConsumer(g, net.actors[l], net.links[l], net.actors[l + 1]);
    }
    forall j | 0 <= j < |net.actors| ensures ActorInv(g, j, next.actors[j], RecvOf(next, j), SentOf(next, j)) {
      ActorAt(g, net, j);
      KilledKeepsActor(g, j, net.actors[j], RecvOf(net, j), SentOf(net, j));
    }
  }

  lemma StepKeepsInv(g: Graph, net: Net, ev: Event)
    requires g.Valid() && WellShaped(g, net) && Inv(g, net) && Enabled(g, net, ev)
    ensures Inv(g, Step(g, net, ev))
    ensures AllAnnounced(g, net) && !ev.Kill? ==> AllAnnounced(g, Step(g, net, ev))
  {
    hide LinkInv, Announced, Step, ActorInv;
    if ev.Kill? {
      KillKeepsInv(g, net, ev);
    } else {
      var next := Step(g, net, ev);
      forall l | 0 <= l < |net.links|
        ensures LinkInv(g, next.actors[l], next.links[l], next.actors[l + 1])
        ensures AllAnnounced(g, net) ==> Announced(next.actors[l], next.links[l], next.actors[l + 1])
      {
        DeliveryKeepsLinks(g, net, ev, l);
      }
      forall j | 0 <= j < |net.actors| ensures ActorInv(g, j, next.actors[j], RecvOf(next, j), SentOf(next, j)) {
        DeliveryKeepsActors(g, net, ev, j);
      }
    }
  }

  lemma InitHolds(g: Graph)
    requires g.Valid()
    ensures Inv(g, Init(g)) && AllAnnounced(g, Init(g))
  {
    var net := Init(g);
    forall l | 0 <= l < |net.links|
      ensures LinkInv(g, net.actors[l], net.links[l], net.actors[l + 1])
      ensures Announced(net.actors[l], net.links[l], net.actors[l + 1])
    {
      assert net.links[l] == Link(true, [], [], [], []);
    }
    forall j | 0 <= j < |net.actors| ensures ActorInv(g, j, net.actors[j], RecvOf(net, j), SentOf(net, j)) {
    }
    hide LinkInv, Announced, ActorInv;
  }

  ghost predicate NoKill(evs: seq<Event>) {
    forall j :: 0 <= j < |evs| ==> !evs[j].Kill?
  }

  /** Safety over whole runs. */
  lemma {:induction false} RunsKeepInv(g: Graph, evs: seq<Event>, net: Net)
    requires g.Valid() && WellShaped(g, net) && Run(g, evs, net)
    ensures Inv(g, net)
    ensures NoKill(evs) ==> AllAnnounced(g, net)
  {
    hide Inv, AllAnnounced, Step, Enabled;
    if evs == [] {
      InitHolds(g);
    } else {
      var n := |evs| - 1;
      var prev :| WellShaped(g, prev) && Run(g, evs[..n], prev)
                  && Enabled(g, prev, evs[n]) && net == Step(g, prev, evs[n]);
      RunsKeepInv(g, evs[..n], prev);
      StepKeepsInv(g, prev, evs[n]);
    }
  }
}
