/** What the graph computes: whole-run statements about what a sink gets. */
module StreamTheorems {
  import opened StreamStages
  import opened StreamGraph
  import opened StreamInvariant
  import opened StreamRuns

  // ----- Transforms -----

  lemma {:induction false} FilterMapConcat(f: Elem -> Outcome, xs: seq<Elem>, ys: seq<Elem>)
    ensures FilterMap(f, xs + ys) == FilterMap(f, xs) + FilterMap(f, ys)
  {
    if ys == [] {
      assert xs + ys == xs;
    } else {
      var n := |ys| - 1;
      assert xs + ys == (xs + ys[..n]) + [ys[n]] && ys == ys[..n] + [ys[n]];
      FilterMapConcat(f, xs, ys[..n]);
      FilterMapSnoc(f, xs + ys[..n], ys[n]);
      FilterMapSnoc(f, ys[..n], ys[n]);
    }
  }

  lemma FilterMapPrefix(f: Elem -> Outcome, xs: seq<Elem>, ys: seq<Elem>)
    requires xs <= ys
    ensures FilterMap(f, xs) <= FilterMap(f, ys)
  {
    FilterMapConcat(f, xs, ys[|xs|..]);
    assert xs + ys[|xs|..] == ys;
  }

  /** The elements `xs`, put on link `l`, as they arrive at the sink. */
  ghost function Through(g: Graph, l: nat, xs: seq<Elem>): seq<Elem>
    requires l <= |g.stages|
    decreases |g.stages| - l
  {
    if l == |g.stages| then xs else Through(g, l + 1, FilterMap(g.stages[l].transform, xs))
  }

  lemma {:induction false} ThroughConcat(g: Graph, l: nat, xs: seq<Elem>, ys: seq<Elem>)
    requires l <= |g.stages|
    ensures Through(g, l, xs + ys) == Through(g, l, xs) + Through(g, l, ys)
    decreases |g.stages| - l
  {
    if l < |g.stages| {
      FilterMapConcat(g.stages[l].transform, xs, ys);
      ThroughConcat(g, l + 1, FilterMap(g.stages[l].transform, xs), FilterMap(g.stages[l].transform, ys));
    }
  }

  /** Pushing what the first `l` stages make of the items through the rest is the whole composition. */
  lemma {:induction false} ThroughIsComposed(g: Graph, l: nat, xs: seq<Elem>)
    requires l <= |g.stages|
    ensures Through(g, l, Composed(g, l, xs)) == Composed(g, |g.stages|, xs)
    decreases |g.stages| - l
  {
    if l < |g.stages| { ThroughIsComposed(g, l + 1, xs); }
  }

  // ----- Nothing but the mapped source ever flows -----

  lemma {:induction false} SentIsPrefix(g: Graph, net: Net, l: nat)
    requires WellShaped(g, net) && Inv(g, net) && l < |net.links|
    ensures net.links[l].recv <= net.links[l].sent <= Flow(g, l)
  {
    hide Inv;
    LinkAt(g, net, l);
    ActorAt(g, net, l);
    if l > 0 {
      SentIsPrefix(g, net, l - 1);
      FilterMapPrefix(g.stages[l - 1].transform, net.links[l - 1].recv, Flow(g, l - 1));
    }
  }

  ghost predicate StageAccepts(g: Graph, i: nat)
    requires i < |g.stages|
  {
    NoneRaises(g.stages[i].transform, Flow(g, i))
  }

  /** A stage that completed has seen and passed on everything, and so has every stage above it. */
  lemma {:induction false} CompletedSentAll(g: Graph, net: Net, l: nat)
    requires WellShaped(g, net) && Inv(g, net) && l < |net.links| && net.actors[l].Completed()
    ensures net.links[l].sent == Flow(g, l) && !g.raises
    ensures forall i: nat :: i < l ==> StageAccepts(g, i)
  {
    hide Inv, FilterMap;
    ActorAt(g, net, l);
    if l > 0 {
      LinkAt(g, net, l - 1);
      CompletedSentAll(g, net, l - 1);
    }
  }

  /** In every state of every run, also under failures, cancellation and outside termination: the sink holds
      a prefix of the composed map of the source, and success means all of it, with no user code raising. */
  lemma SinkGetsComposedPrefix(g: Graph, evs: seq<Event>, net: Net)
    requires g.Valid() && WellShaped(g, net) && Run(g, evs, net)
    ensures var n := |g.stages|; var sink := net.actors[n + 1].sink;
            && sink.items <= Composed(g, n, g.items)
            && (sink.result.Succeeded? ==> sink.result.items == Composed(g, n, g.items) && !Faulty(g))
  {
    hide Inv, ActorInv, LinkInv, Composed, AllAnnounced;
    var n := |g.stages|;
    var sink := net.actors[n + 1].sink;
    RunsKeepInv(g, evs, net);
    SentIsPrefix(g, net, n);
    SinkOutcome(g, net);
    if sink.result.Succeeded? {
      CompletedSentAll(g, net, n);
      forall i, k | 0 <= i < n && 0 <= k < |Flow(g, i)|
        ensures !g.stages[i].transform(Flow(g, i)[k]).Raise?
      {
        assert StageAccepts(g, i);
      }
    }
  }

  lemma SinkOutcome(g: Graph, net: Net)
    requires WellShaped(g, net) && Inv(g, net)
    ensures var n := |g.stages|; var sink := net.actors[n + 1].sink;
            && sink.items <= net.links[n].recv
            && (sink.result.Succeeded? ==>
                  && net.actors[n].Completed() && sink.result.items == net.links[n].sent
                  && forall k :: 0 <= k < |net.links[n].sent| ==> g.accepts(net.links[n].sent[k]))
  {
    var n := |g.stages|;
    LinkAt(g, net, n);
    ActorAt(g, net, n + 1);
    hide Inv;
  }

  // ----- Conservation -----

  /** Everything from link `l` on, in the order it will arrive: what the sink holds, then what is in transit
      and buffered, each pushed through the maps still ahead of it. */
  ghost function Pipeline(g: Graph, net: Net, l: nat): seq<Elem>
    requires WellShaped(g, net) && l < |net.links|
    decreases |net.links| - l
  {
    (if l == |g.stages| then net.actors[l + 1].sink.items
     else Pipeline(g, net, l + 1) + Through(g, l + 1, net.actors[l + 1].stage.buf))
    + Through(g, l, NextsOf(net.links[l].down))
  }

  ghost predicate NoneFailed(g: Graph, net: Net)
    requires WellShaped(g, net)
  {
    forall i :: 0 <= i < |net.actors| ==> net.actors[i].Live() || net.actors[i].Completed()
  }

  lemma {:induction false} PipelineHoldsSent(g: Graph, net: Net, l: nat)
    requires WellShaped(g, net) && Inv(g, net) && NoneFailed(g, net) && l < |net.links|
    ensures Pipeline(g, net, l) == Through(g, l, net.links[l].sent)
    decreases |net.links| - l
  {
    hide Inv, FilterMap, CreditInv, UpInv, DownShape, Target;
    var k, c := net.links[l], net.actors[l + 1];
    LinkAt(g, net, l);
    ActorAt(g, net, l + 1);
    assert c.Live() || c.Completed();
    assert k.sent == k.recv + NextsOf(k.down);
    ThroughConcat(g, l, k.recv, NextsOf(k.down));
    if l < |g.stages| {
      PipelineHoldsSent(g, net, l + 1);
      var next := net.links[l + 1];
      assert FilterMap(g.stages[l].transform, k.recv) == next.sent + c.stage.buf;
      ThroughConcat(g, l + 1, next.sent, c.stage.buf);
    }
  }

  /** No element is lost, duplicated or reordered: while no stage failed, the sink, the mailboxes and the
      buffers together hold the composed map of exactly what was taken from the source. */
  lemma PipelineConserved(g: Graph, evs: seq<Event>, net: Net)
    requires g.Valid() && WellShaped(g, net) && Run(g, evs, net) && NoneFailed(g, net)
    ensures exists taken :: taken + net.actors[0].source.rest == g.items
                         && Pipeline(g, net, 0) == Composed(g, |g.stages|, taken)
  {
    RunsKeepInv(g, evs, net);
    PipelineHoldsSent(g, net, 0);
    ActorAt(g, net, 0);
    hide Inv, AllAnnounced;
    ThroughIsComposed(g, 0, net.links[0].sent);
    assert net.links[0].sent + net.actors[0].source.rest == g.items;
  }

  // ----- Demand -----

  /** What a map stage has on order is always in transit up to its upstream, owed by it, or in transit down,
      and its buffer has room for all of it. */
  lemma DemandConserved(g: Graph, evs: seq<Event>, net: Net, i: nat)
    requires g.Valid() && WellShaped(g, net) && Run(g, evs, net)
    requires 1 <= i <= |g.stages| && net.actors[i].Live() && net.actors[i - 1].Live()
    ensures var s := net.actors[i].stage; var k := net.links[i - 1];
            && s.inFlight == ReqSum(k.up) + net.actors[i - 1].Demand() + |NextsOf(k.down)|
            && |s.buf| + s.inFlight <= g.stages[i - 1].maxbuf
  {
    hide Inv, AllAnnounced, FilterMap, UpInv, DownInv, Run;
    RunsKeepInv(g, evs, net);
    LinkAt(g, net, i - 1);
    ActorAt(g, net, i);
  }

  /** The buffer check of a stage never fires. */
  lemma BufferNeverOverflows(g: Graph, evs: seq<Event>, net: Net, l: nat)
    requires g.Valid() && WellShaped(g, net) && Run(g, evs, net)
    requires l < |g.stages| && net.actors[l + 1].Live()
    requires net.links[l].down != [] && net.links[l].down[0].Next?
    ensures |net.actors[l + 1].stage.buf| < g.stages[l].maxbuf
  {
    hide Inv, AllAnnounced, FilterMap, UpInv, Run;
    RunsKeepInv(g, evs, net);
    LinkAt(g, net, l);
    ActorAt(g, net, l + 1);
    assert |NextsOf(net.links[l].down)| > 0;
  }
}
