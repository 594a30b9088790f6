/** A whole stream graph as a network of stages: any number of map stages between a source and a sink.

    Actor 0 is the source, actors 1..n are the map stages and actor n+1 is the sink; link l joins actor l
    to actor l+1. A mailbox keeps messages of one sender in order but may interleave senders, so a link holds
    one queue in each direction and the pending wiring message of its consumer, and any of them may be
    delivered next.
 */
module StreamGraph {
  import opened StreamStages

  datatype Graph = Graph(items: seq<Elem>, raises: bool, stages: seq<StageCfg>,
                         accepts: Elem -> bool, prefetch: nat) {
    predicate Valid() {
      prefetch > 0 && forall i :: 0 <= i < |stages| ==> stages[i].Valid()
    }
  }

  datatype Actor = SourceActor(source: Source) | MapActor(stage: Stage) | SinkActor(sink: Sink) {
    predicate Live() {
      match this
      case SourceActor(s) => !s.terminated
      case MapActor(s) => !s.terminated
      case SinkActor(s) => s.result.Open?
    }

    /** Ended in the regular way, having passed on everything it got. */
    predicate Completed() {
      match this
      case SourceActor(s) => s.exhausted
      case MapActor(s) => s.completionSent
      case SinkActor(s) => s.result.Succeeded?
    }

    predicate HasUp() {
      match this
      case SourceActor(_) => true
      case MapActor(s) => s.hasUp
      case SinkActor(s) => s.hasUp
    }

    predicate HasDown() {
      match this
      case SourceActor(s) => s.hasDown
      case MapActor(s) => s.hasDown
      case SinkActor(_) => true
    }

    predicate UpClosed() {
      match this
      case SourceActor(_) => false
      case MapActor(s) => s.upClosed
      case SinkActor(s) => s.result.Succeeded?
    }

    /** Requested by the downstream neighbour and not yet served. A source serves at once. */
    function Demand(): nat {
      if MapActor? then stage.demand else 0
    }

    /** What a consumer has on order upstream. */
    function Credit(g: Graph): nat {
      match this
      case SourceActor(_) => 0
      case MapActor(s) => s.inFlight
      case SinkActor(s) => if s.hasUp then g.prefetch else 0
    }
  }

  /** `sent` and `recv` record every element put on and taken off the link so far. */
  datatype Link = Link(wire: bool, up: seq<UpMsg>, down: seq<DownMsg>, sent: seq<Elem>, recv: seq<Elem>)

  datatype Net = Net(actors: seq<Actor>, links: seq<Link>)

  /** `Kill` is the lifecycle terminating a stage from outside. */
  datatype Event = Wire(l: nat) | Down(l: nat) | Up(l: nat) | Kill(i: nat)

  // ----- Steps -----

  function Lift<S>(r: Reaction<S>, a: Actor): Reaction<Actor> {
    Reaction(a, r.subscribe, r.request, r.cancel, r.elems, r.end)
  }

  function React(g: Graph, i: nat, a: Actor, m: Msg): (r: Reaction<Actor>)
    requires a.MapActor? ==> 1 <= i <= |g.stages|
  {
    match a
    case SourceActor(s) => var r := SourceReceive(s, m); Lift(r, SourceActor(r.state))
    case MapActor(s) => var r := StageReceive(g.stages[i - 1], s, m); Lift(r, MapActor(r.state))
    case SinkActor(s) => var r := SinkReceive(g.accepts, g.prefetch, s, m); Lift(r, SinkActor(r.state))
  }

  function Received(m: Msg): seq<Elem> {
    if m.FromUp? && m.down.Next? then [m.down.elem] else []
  }

  function AsConsumer(k: Link, m: Msg, r: Reaction<Actor>): Link {
    k.(up := k.up + ToUp(r), recv := k.recv + Received(m))
  }

  function AsProducer(k: Link, r: Reaction<Actor>): Link {
    k.(down := k.down + ToDown(r), sent := k.sent + r.elems)
  }

  ghost predicate WellShaped(g: Graph, net: Net) {
    && |net.actors| == |g.stages| + 2
    && |net.links| == |g.stages| + 1
    && net.actors[0].SourceActor?
    && net.actors[|g.stages| + 1].SinkActor?
    && forall i :: 1 <= i <= |g.stages| ==> net.actors[i].MapActor?
  }

  ghost predicate Enabled(g: Graph, net: Net, ev: Event)
    requires WellShaped(g, net)
  {
    match ev
    case Wire(l) => l < |net.links| && net.links[l].wire
    case Down(l) => l < |net.links| && net.links[l].down != []
    case Up(l) => l < |net.links| && net.links[l].up != []
    case Kill(i) => i < |net.actors|
  }

  /** The actor a delivery is addressed to. */
  function Addressee(ev: Event): nat {
    match ev
    case Wire(l) => l + 1
    case Down(l) => l + 1
    case Up(l) => l
    case Kill(i) => i
  }

  /** Hand message `m` to actor `i`; a stopped actor discards it. */
  ghost function Deliver(g: Graph, net: Net, i: nat, m: Msg): (r: Net)
    requires WellShaped(g, net) && i < |net.actors|
    ensures WellShaped(g, r)
  {
    var a := net.actors[i];
    if !a.Live() then net else
    var r := React(g, i, a, m);
    var links1 := if i > 0 then net.links[i - 1 := AsConsumer(net.links[i - 1], m, r)] else net.links;
    var links2 := if i < |links1| then links1[i := AsProducer(links1[i], r)] else links1;
    Net(net.actors[i := r.state], links2)
  }

  function Killed(a: Actor): Actor {
    match a
    case SourceActor(s) => SourceActor(s.(terminated := true))
    case MapActor(s) => MapActor(s.(terminated := true))
    case SinkActor(s) => if s.result.Open? then SinkActor(s.(result := Failed)) else a
  }

  ghost function Step(g: Graph, net: Net, ev: Event): (r: Net)
    requires WellShaped(g, net) && Enabled(g, net, ev)
    ensures WellShaped(g, r)
  {
    match ev
    case Wire(l) =>
      Deliver(g, net.(links := net.links[l := net.links[l].(wire := false)]), l + 1, SetUpstream)
    case Down(l) =>
      var k := net.links[l];
      Deliver(g, net.(links := net.links[l := k.(down := k.down[1..])]), l + 1, FromUp(k.down[0]))
    case Up(l) =>
      var k := net.links[l];
      Deliver(g, net.(links := net.links[l := k.(up := k.up[1..])]), l, FromDown(k.up[0]))
    case Kill(i) => net.(actors := net.actors[i := Killed(net.actors[i])])
  }

  /** Every stage has started and the wiring thread has told each consumer its upstream. */
  function Init(g: Graph): (net: Net)
    ensures WellShaped(g, net)
  {
    Net([SourceActor(Source(false, g.items, g.raises, false, false))]
        + seq(|g.stages|, _ => MapActor(FreshStage)) + [SinkActor(Sink(false, [], Open))],
        seq(|g.stages| + 1, _ => Link(true, [], [], [], [])))
  }

  /** `net` is reached by the events `evs`, in order. */
  ghost predicate Run(g: Graph, evs: seq<Event>, net: Net)
    requires WellShaped(g, net)
  {
    if evs == [] then net == Init(g)
    else exists prev :: WellShaped(g, prev) && Run(g, evs[..|evs| - 1], prev)
                     && Enabled(g, prev, evs[|evs| - 1]) && net == Step(g, prev, evs[|evs| - 1])
  }

  // ----- What the elements become -----

  function Out(o: Outcome): seq<Elem> {
    if o.Emit? then [o.value] else []
  }

  /** The elements a stage with transform `f` emits for the inputs `xs`. */
  function FilterMap(f: Elem -> Outcome, xs: seq<Elem>): seq<Elem> {
    if xs == [] then [] else FilterMap(f, xs[..|xs| - 1]) + Out(f(xs[|xs| - 1]))
  }

  /** The composition of the first `i` transforms of the graph. */
  function Composed(g: Graph, i: nat, xs: seq<Elem>): seq<Elem>
    requires i <= |g.stages|
  {
    if i == 0 then xs else FilterMap(g.stages[i - 1].transform, Composed(g, i - 1, xs))
  }

  /** The elements that reach the consumer of link `l` when nothing fails. */
  function Flow(g: Graph, l: nat): seq<Elem>
    requires l <= |g.stages|
  {
    Composed(g, l, g.items)
  }

  /** Some user code raises on an element that reaches it: the iterator at its end, a transform or the
      function of a for-each sink. */
  ghost predicate Faulty(g: Graph) {
    || g.raises
    || (exists i, k :: 0 <= i < |g.stages| && 0 <= k < |Flow(g, i)| && g.stages[i].transform(Flow(g, i)[k]).Raise?)
    || (exists k :: 0 <= k < |Flow(g, |g.stages|)| && !g.accepts(Flow(g, |g.stages|)[k]))
  }
}
