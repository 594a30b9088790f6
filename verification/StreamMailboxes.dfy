/** How many unprocessed messages a running stage can have. */
module StreamMailboxes {
  import opened StreamStages
  import opened StreamGraph
  import opened StreamInvariant
  import opened StreamLinks
  import opened StreamRuns
  import opened StreamProgress

  ghost predicate SamePrefetch(g: Graph) {
    forall i :: 0 <= i < |g.stages| ==> g.stages[i].prefetch == g.prefetch
  }

  /** No stage is owed, or has on order, more than one prefetch. */
  ghost predicate Narrow(g: Graph, net: Net) {
    forall i :: 0 <= i < |net.actors| ==> net.actors[i].Demand() <= g.prefetch && net.actors[i].Credit(g) <= g.prefetch
  }

  lemma {:induction false} AskedIsSummed(us: seq<UpMsg>, m: Msg)
    requires us != [] && m.FromDown? && m.up == us[0] && PositiveRequests(us)
    ensures Asked(m) <= ReqSum(us)
  {
    assert forall k :: 0 <= k < |us[1..]| ==> us[1..][k] == us[k + 1];
    ReqSumNonNegative(us[1..]);
  }

  lemma StepKeepsDemandNarrow(g: Graph, net: Net, ev: Event)
    requires g.Valid() && WellShaped(g, net) && Inv(g, net) && Narrow(g, net) && Enabled(g, net, ev) && !ev.Kill?
    requires net.actors[Addressee(ev)].Live()
    ensures var i := Addressee(ev); React(g, i, net.actors[i], Inbox(g, net, ev)).state.Demand() <= g.prefetch
  {
    hide Inv, React, ActorInv, UpEffect, DownInv;
    var i, m := Addressee(ev), Inbox(g, net, ev);
    AddresseeReacts(g, net, ev);
    if i < |net.links| {
      LinkAt(g, net, i);
      var k := net.links[i];
      LinkReceivedSent(g, net, i);
      if m.FromDown? { AskedIsSummed(k.up, m); } else { ReqSumNonNegative(k.up); }
    }
  }

  lemma LinkReceivedSent(g: Graph, net: Net, l: nat)
    requires WellShaped(g, net) && Inv(g, net) && l < |net.links|
    ensures |net.links[l].recv| <= |net.links[l].sent|
  {
    LinkAt(g, net, l);
  }

  lemma CreditFollowsDemand(g: Graph, net: Net, i: nat)
    requires g.Valid() && SamePrefetch(g) && WellShaped(g, net) && Inv(g, net) && i < |net.actors|
    requires net.actors[i].Demand() <= g.prefetch
    ensures net.actors[i].Credit(g) <= g.prefetch
  {
    ActorAt(g, net, i);
    hide Inv, FilterMap;
  }

  lemma StepKeepsNarrow(g: Graph, net: Net, ev: Event)
    requires g.Valid() && SamePrefetch(g) && WellShaped(g, net) && Inv(g, net) && Narrow(g, net)
    requires Enabled(g, net, ev) && Inv(g, Step(g, net, ev))
    ensures Narrow(g, Step(g, net, ev))
  {
    hide Inv, React, AsConsumer, AsProducer, ComesDown, ComesUp, SamePrefetch;
    var next := Step(g, net, ev);
    if !ev.Kill? {
      hide Step;
      DeliveryIsLocal(g, net, ev);
      var i := Addressee(ev);
      if net.actors[i].Live() {
        StepKeepsDemandNarrow(g, net, ev);
        CreditFollowsDemand(g, next, i);
      }
    }
  }

  lemma {:induction false} RunsKeepNarrow(g: Graph, evs: seq<Event>, net: Net)
    requires g.Valid() && SamePrefetch(g) && WellShaped(g, net) && Run(g, evs, net)
    ensures Narrow(g, net)
  {
    if evs != [] {
      hide Inv, AllAnnounced, Step, Enabled, Narrow, SamePrefetch;
      var n := |evs| - 1;
      var prev :| WellShaped(g, prev) && Run(g, evs[..n], prev)
                  && Enabled(g, prev, evs[n]) && net == Step(g, prev, evs[n]);
      RunsKeepNarrow(g, evs[..n], prev);
      RunsKeepInv(g, evs[..n], prev);
      RunsKeepInv(g, evs, net);
      StepKeepsNarrow(g, prev, evs[n]);
    }
  }

  // ----- Counting -----

  lemma {:induction false} UpCount(us: seq<UpMsg>)
    requires PositiveRequests(us)
    requires forall j :: 0 <= j < |us| && us[j].Cancel? ==> j == |us| - 1
    requires forall j :: 0 <= j < |us| ==> !us[j].Subscribe?
    ensures |us| <= ReqSum(us) + (if EndsWith(us, Cancel) then 1 else 0)
  {
    if us != [] {
      assert forall k :: 0 <= k < |us[1..]| ==> us[1..][k] == us[k + 1];
      UpCount(us[1..]);
    }
  }

  lemma {:induction false} DownCount(ds: seq<DownMsg>)
    requires forall j :: 0 <= j < |ds| - 1 ==> ds[j].Next?
    ensures |ds| <= |NextsOf(ds)| + 1
  {
    if |ds| > 1 {
      assert forall k :: 0 <= k < |ds[1..]| ==> ds[1..][k] == ds[k + 1];
      DownCount(ds[1..]);
    }
  }

  ghost function FromBelow(net: Net, i: nat): seq<UpMsg> {
    if i < |net.links| then net.links[i].up else []
  }

  /** All messages addressed to stage `i` that it has not handled. */
  ghost function Unprocessed(net: Net, i: nat): nat
    requires i <= |net.links|
  {
    (if i > 0 then (if net.links[i - 1].wire then 1 else 0) + |net.links[i - 1].down| else 0) + |FromBelow(net, i)|
  }

  lemma BelowCount(g: Graph, net: Net, i: nat)
    requires g.Valid() && WellShaped(g, net) && Inv(g, net) && Narrow(g, net)
    requires i < |net.links| && net.actors[i].Live()
    ensures var us := net.links[i].up; var over := if EndsWith(us, Cancel) then 1 else 0;
            |us| <= g.prefetch + over + (if net.actors[i].HasDown() then 0 else 1)
  {
    hide Inv, DownInv;
    var us := net.links[i].up;
    LinkAt(g, net, i);
    LinkReceivedSent(g, net, i);
    assert net.actors[i + 1].Credit(g) <= g.prefetch;
    if us != [] && us[0].Subscribe? {
      UpShapeTail(us, !net.actors[i + 1].Live() && net.links[i].recv != [], !net.actors[i].HasDown());
      UpCount(us[1..]);
      assert EndsWith(us[1..], Cancel) ==> EndsWith(us, Cancel);
    } else {
      UpCount(us);
    }
  }

  lemma AboveCount(g: Graph, net: Net, i: nat)
    requires g.Valid() && WellShaped(g, net) && Inv(g, net) && Narrow(g, net)
    requires 1 <= i <= |net.links| && net.actors[i].Live()
    ensures var k := net.links[i - 1];
            (if k.wire then 1 else 0) + |k.down| <= (if net.actors[i].HasDown() then g.prefetch else 0) + 1
  {
    hide Inv, FilterMap, UpShape;
    LinkAt(g, net, i - 1);
    ActorAt(g, net, i);
    assert net.actors[i].Credit(g) <= g.prefetch;
    DownCount(net.links[i - 1].down);
  }

  /** With one prefetch throughout, a running stage never has more than twice the prefetch and one message to
      handle; a cancellation may come on top. */
  lemma MailboxBounded(g: Graph, evs: seq<Event>, net: Net, i: nat)
    requires g.Valid() && SamePrefetch(g) && WellShaped(g, net) && Run(g, evs, net)
    requires i < |net.actors| && net.actors[i].Live()
    ensures Unprocessed(net, i) <= 2 * g.prefetch + 1 + (if EndsWith(FromBelow(net, i), Cancel) then 1 else 0)
  {
    hide Inv, AllAnnounced, Run, Narrow;
    RunsKeepInv(g, evs, net);
    RunsKeepNarrow(g, evs, net);
    if i < |net.links| { BelowCount(g, net, i); }
    if i > 0 { AboveCount(g, net, i); }
  }

  /** Without failures the bound is twice the prefetch and one. */
  lemma MailboxBoundedWithoutFailure(g: Graph, evs: seq<Event>, net: Net, i: nat)
    requires g.Valid() && SamePrefetch(g) && WellShaped(g, net) && Run(g, evs, net)
    requires NoKill(evs) && !Faulty(g) && i < |net.actors| && net.actors[i].Live()
    ensures Unprocessed(net, i) <= 2 * g.prefetch + 1
  {
    hide Run, Faulty;
    MailboxBounded(g, evs, net, i);
    RunsKeepClean(g, evs, net);
    if i < |net.links| { assert CleanLink(net.links[i]); }
  }
}
