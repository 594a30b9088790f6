/** The bound on waiting messages is reached, for every prefetch: a source of twice as many elements, three map stages
    and a sink.

    The second map stage is left waiting with a whole prefetch of elements and their end from above, and with as many
    single requests from below; if the sink then fails, with a cancellation on top.
 */
module StreamMailboxPeaks {
  import opened StreamStages
  import opened StreamGraph
  import opened StreamInvariant
  import opened StreamLinks
  import opened StreamRuns
  import opened StreamMailboxes

  function Copies(e: Elem, n: nat): (r: seq<Elem>)
    ensures |r| == n && forall k :: 0 <= k < n ==> r[k] == e
  {
    seq(n, _ => e)
  }

  function Ones(n: nat): (r: seq<UpMsg>)
    ensures |r| == n && forall k :: 0 <= k < n ==> r[k] == Request(1)
  {
    seq(n, _ => Request(1))
  }

  /** One element, over and over, through stages that pass it on. */
  datatype Setup = Setup(e: Elem, f: Elem -> Outcome, p: nat, maxbuf: nat, accepts: Elem -> bool) {
    predicate Valid() { 0 < p <= maxbuf && f(e) == Emit(e) }

    function Cfg(): StageCfg { StageCfg(f, p, maxbuf) }

    function G(): Graph { Graph(Copies(e, 2 * p), false, [Cfg(), Cfg(), Cfg()], accepts, p) }
  }

  /** A graph of three map stages, by name. */
  datatype Line = Line(s: Source, a: Stage, b: Stage, c: Stage, z: Sink, k0: Link, k1: Link, k2: Link, k3: Link)

  function NetOf(x: Line): Net {
    Net([SourceActor(x.s), MapActor(x.a), MapActor(x.b), MapActor(x.c), SinkActor(x.z)], [x.k0, x.k1, x.k2, x.k3])
  }

  function Idle(demand: nat, inFlight: nat): Stage {
    Stage(true, true, [], demand, inFlight, false, false, false)
  }

  const Unwired := Link(true, [], [], [], [])

  // ----- What a stage does here -----

  /** An element comes in, goes out and is ordered again. */
  lemma Passes(u: Setup, d: nat)
    requires u.Valid() && 0 < d <= u.p
    ensures StageReceive(u.Cfg(), Idle(d, u.p), FromUp(Next(u.e)))
            == Reaction(Idle(d - 1, u.p), false, 1, false, [u.e], More)
  {
    assert [u.e][..1] == [u.e] && [u.e][1..] == [] && [] + [u.e] == [u.e];
  }

  /** A request that raises the demand to the prefetch, with nothing buffered. */
  lemma Asks(u: Setup)
    requires u.Valid()
    ensures StageReceive(u.Cfg(), Idle(u.p - 1, u.p), FromDown(Request(1))) == Quiet(Idle(u.p, u.p))
  {
  }

  /** The downstream subscribes and orders a prefetch. */
  function Known(u: Setup): Stage {
    FreshStage.(hasDown := true, demand := u.p)
  }

  lemma Subscribes(u: Setup)
    requires u.Valid()
    ensures StageReceive(u.Cfg(), FreshStage, FromDown(Subscribe)) == Quiet(FreshStage.(hasDown := true))
    ensures StageReceive(u.Cfg(), FreshStage.(hasDown := true), FromDown(Request(u.p))) == Quiet(Known(u))
    ensures StageReceive(u.Cfg(), Known(u), SetUpstream) == Reaction(Idle(u.p, u.p), true, u.p, false, [], More)
  {
  }

  // ----- One delivery, by name -----

  ghost predicate Reaches(u: Setup, x: Line) {
    exists evs :: Run(u.G(), evs, NetOf(x)) && NoKill(evs)
  }

  lemma ReachesNext(u: Setup, x: Line, ev: Event, y: Line)
    requires Reaches(u, x) && !ev.Kill? && Enabled(u.G(), NetOf(x), ev) && Step(u.G(), NetOf(x), ev) == NetOf(y)
    ensures Reaches(u, y)
  {
    hide Step, Enabled;
    var evs :| Run(u.G(), evs, NetOf(x)) && NoKill(evs);
    var more := evs + [ev];
    assert more[..|more| - 1] == evs;
    assert Run(u.G(), more, NetOf(y)) && NoKill(more);
  }

  ghost function Took<S>(k: Link, m: Msg, r: Reaction<S>): Link {
    var j := TakeDown(k, m);
    j.(up := j.up + ToUp(r), recv := j.recv + Received(m))
  }

  ghost function Gave<S>(k: Link, m: Msg, r: Reaction<S>): Link {
    var j := TakeUp(k, m);
    j.(down := j.down + ToDown(r), sent := j.sent + r.elems)
  }

  lemma TookNothing<S>(k: Link, u: UpMsg, r: Reaction<S>)
    requires !r.subscribe && !r.cancel && r.request <= 0
    ensures Took(k, FromDown(u), r) == k
  {
    assert k.up + [] == k.up && k.recv + [] == k.recv;
  }

  lemma GaveNothing<S>(k: Link, m: Msg, r: Reaction<S>)
    requires r.elems == [] && r.end == More
    ensures Gave(k, m, r) == TakeUp(k, m)
  {
    assert k.down + [] == k.down && k.sent + [] == k.sent;
  }

  /** A map stage hears something. */
  lemma MapHears(u: Setup, x: Line, ev: Event, i: nat, m: Msg, r: Reaction<Stage>, y: Line)
    requires Reaches(u, x) && !ev.Kill? && Enabled(u.G(), NetOf(x), ev) && Addressee(ev) == i && 1 <= i <= 3
    requires m == Inbox(u.G(), NetOf(x), ev) && NetOf(x).actors[i].Live()
    requires StageReceive(u.Cfg(), NetOf(x).actors[i].stage, m) == r
    requires NetOf(y).actors == NetOf(x).actors[i := MapActor(r.state)]
    requires NetOf(y).links
             == NetOf(x).links[i - 1 := Took(NetOf(x).links[i - 1], m, r)][i := Gave(NetOf(x).links[i], m, r)]
    ensures Reaches(u, y)
  {
    hide StageReceive, ToUp, ToDown, Reaches, TakeUp, TakeDown, Step;
    DeliveryIsLocal(u.G(), NetOf(x), ev);
    assert React(u.G(), i, NetOf(x).actors[i], m) == Lift(r, MapActor(r.state));
    Lifted(r, MapActor(r.state));
    assert Step(u.G(), NetOf(x), ev).links == NetOf(y).links;
    ReachesNext(u, x, ev, y);
  }

  lemma Lifted<S>(r: Reaction<S>, a: Actor)
    ensures ToUp(Lift(r, a)) == ToUp(r) && ToDown(Lift(r, a)) == ToDown(r)
  {
  }

  lemma SourceHears(u: Setup, x: Line, m: UpMsg, r: Reaction<Source>, y: Line)
    requires Reaches(u, x) && x.k0.up != [] && m == x.k0.up[0] && !x.s.terminated
    requires SourceReceive(x.s, FromDown(m)) == r
    requires y == x.(s := r.state, k0 := Gave(x.k0, FromDown(m), r))
    ensures Reaches(u, y)
  {
    hide ToUp, ToDown, Reaches, TakeUp, TakeDown, Step;
    DeliveryIsLocal(u.G(), NetOf(x), Up(0));
    Lifted(r, SourceActor(r.state));
    assert Step(u.G(), NetOf(x), Up(0)).links == NetOf(y).links;
    ReachesNext(u, x, Up(0), y);
  }

  lemma SinkHears(u: Setup, x: Line, ev: Event, m: Msg, r: Reaction<Sink>, y: Line)
    requires Reaches(u, x) && (ev == Wire(3) || ev == Down(3)) && Enabled(u.G(), NetOf(x), ev) && x.z.result.Open?
    requires m == Inbox(u.G(), NetOf(x), ev) && SinkReceive(u.accepts, u.p, x.z, m) == r
    requires y == x.(z := r.state, k3 := Took(x.k3, m, r))
    ensures Reaches(u, y)
  {
    hide ToUp, ToDown, Reaches, TakeUp, TakeDown, Step;
    DeliveryIsLocal(u.G(), NetOf(x), ev);
    Lifted(r, SinkActor(r.state));
    assert Step(u.G(), NetOf(x), ev).links == NetOf(y).links;
    ReachesNext(u, x, ev, y);
  }

  // ----- Wiring -----

  /** Before anything is delivered. */
  function Wiring(u: Setup): Line {
    Line(Source(false, Copies(u.e, 2 * u.p), false, false, false), FreshStage, FreshStage, FreshStage,
         Sink(false, [], Open), Unwired, Unwired, Unwired, Unwired)
  }

  function Ordered(u: Setup): Link {
    Link(false, [Subscribe, Request(u.p)], [], [], [])
  }

  const Wired := Link(false, [], [], [], [])

  lemma Begins(u: Setup)
    requires u.Valid()
    ensures Reaches(u, Wiring(u))
  {
    assert NetOf(Wiring(u)).actors == Init(u.G()).actors && NetOf(Wiring(u)).links == Init(u.G()).links;
    assert Run(u.G(), [], NetOf(Wiring(u))) && NoKill([]);
  }

  /** A map stage takes in a message from below and says nothing. */
  lemma QuietRequest(u: Setup, x: Line, m: UpMsg, i: nat, s: Stage, y: Line)
    requires Reaches(u, x) && 1 <= i <= 3 && NetOf(x).actors[i].Live()
    requires NetOf(x).links[i].up != [] && NetOf(x).links[i].up[0] == m
    requires StageReceive(u.Cfg(), NetOf(x).actors[i].stage, FromDown(m)) == Quiet(s)
    requires NetOf(y).actors == NetOf(x).actors[i := MapActor(s)]
    requires var k := NetOf(x).links[i]; NetOf(y).links == NetOf(x).links[i := k.(up := k.up[1..])]
    ensures Reaches(u, y)
  {
    hide StageReceive, Reaches, Run, Took, Gave;
    TookNothing(NetOf(x).links[i - 1], m, Quiet(s));
    GaveNothing(NetOf(x).links[i], FromDown(m), Quiet(s));
    MapHears(u, x, Up(i), i, FromDown(m), Quiet(s), y);
  }

  /** A map stage takes in the subscription and the first order from below. */
  lemma OrderArrives(u: Setup, x: Line, i: nat, y: Line)
    requires u.Valid() && Reaches(u, x) && 1 <= i <= 3
    requires NetOf(x).actors[i] == MapActor(FreshStage) && NetOf(x).links[i] == Ordered(u)
    requires NetOf(y).actors == NetOf(x).actors[i := MapActor(Known(u))]
    requires NetOf(y).links == NetOf(x).links[i := Wired]
    ensures Reaches(u, y)
  {
    hide StageReceive, Reaches, Run;
    Subscribes(u);
    var k := Link(false, [Request(u.p)], [], [], []);
    var half := WithStage(x, i, FreshStage.(hasDown := true), k);
    assert k.up[1..] == [] && Ordered(u).up[1..] == k.up;
    QuietRequest(u, x, Subscribe, i, FreshStage.(hasDown := true), half);
    QuietRequest(u, half, Request(u.p), i, Known(u), y);
  }

  function WithStage(x: Line, i: nat, s: Stage, k: Link): Line
    requires 1 <= i <= 3
  {
    if i == 1 then x.(a := s, k1 := k) else if i == 2 then x.(b := s, k2 := k) else x.(c := s, k3 := k)
  }

  /** It learns of its upstream and orders in turn. */
  lemma OrderGoesUp(u: Setup, x: Line, i: nat, y: Line)
    requires u.Valid() && Reaches(u, x) && 1 <= i <= 3
    requires NetOf(x).actors[i] == MapActor(Known(u)) && NetOf(x).links[i - 1] == Unwired
    requires NetOf(y).actors == NetOf(x).actors[i := MapActor(Idle(u.p, u.p))]
    requires NetOf(y).links == NetOf(x).links[i - 1 := Ordered(u)]
    ensures Reaches(u, y)
  {
    hide StageReceive, Reaches, Run;
    Subscribes(u);
    var r := Reaction(Idle(u.p, u.p), true, u.p, false, [], More);
    assert Took(Unwired, SetUpstream, r) == Ordered(u);
    GaveNothing(NetOf(x).links[i], SetUpstream, r);
    hide Took, Gave;
    MapHears(u, x, Wire(i - 1), i, SetUpstream, r, y);
  }

  /** All wired, with the first prefetch of elements on its way from the source. After `k` more rounds below, `k`
      elements wait for the sink and `k` requests for the second stage. */
  function First(u: Setup, k: nat): Line
    requires k <= u.p
  {
    Line(Source(true, Copies(u.e, u.p - k), false, false, false),
         Idle(u.p, u.p), Idle(u.p - k, u.p), Idle(u.p - k, u.p), Sink(true, [], Open),
         Link(false, [], Nexts(Copies(u.e, u.p)), Copies(u.e, u.p + k), Copies(u.e, k)),
         Link(false, [], [], Copies(u.e, k), Copies(u.e, k)),
         Link(false, Ones(k), [], Copies(u.e, k), Copies(u.e, k)),
         Link(false, [], Nexts(Copies(u.e, k)), Copies(u.e, k), []))
  }

  lemma SourceSubscribed(u: Setup, x: Line, y: Line)
    requires u.Valid() && Reaches(u, x) && x.s == Wiring(u).s && x.k0 == Ordered(u)
    requires y == x.(s := First(u, 0).s, k0 := First(u, 0).k0)
    ensures Reaches(u, y)
  {
    hide Reaches;
    var r := Quiet(x.s.(hasDown := true));
    var half := x.(s := r.state, k0 := Link(false, [Request(u.p)], [], [], []));
    GaveNothing(x.k0, FromDown(Subscribe), r);
    assert x.k0.up[1..] == [Request(u.p)];
    SourceHears(u, x, Subscribe, r, half);
    var all := Copies(u.e, 2 * u.p);
    assert all[..u.p] == Copies(u.e, u.p) && all[u.p..] == Copies(u.e, u.p);
    var sent := Quiet(First(u, 0).s).(elems := Copies(u.e, u.p));
    assert Gave(half.k0, FromDown(Request(u.p)), sent) == First(u, 0).k0 by { assert half.k0.up[1..] == []; }
    SourceHears(u, half, Request(u.p), sent, y);
  }

  lemma WiresUp(u: Setup)
    requires u.Valid()
    ensures Reaches(u, First(u, 0))
  {
    hide Reaches;
    Begins(u);
    var w0 := Wiring(u);
    var w1 := w0.(z := Sink(true, [], Open), k3 := Ordered(u));
    var r := Quiet(Sink(true, [], Open)).(subscribe := true, request := u.p);
    assert Took(w0.k3, SetUpstream, r) == Ordered(u);
    SinkHears(u, w0, Wire(3), SetUpstream, r, w1);
    var w2 := w1.(c := Known(u), k3 := Wired);
    OrderArrives(u, w1, 3, w2);
    var w3 := w2.(c := Idle(u.p, u.p), k2 := Ordered(u));
    OrderGoesUp(u, w2, 3, w3);
    var w4 := w3.(b := Known(u), k2 := Wired);
    OrderArrives(u, w3, 2, w4);
    WiresUpper(u, w4);
  }

  lemma WiresUpper(u: Setup, x: Line)
    requires u.Valid() && Reaches(u, x)
    requires x == Wiring(u).(z := Sink(true, [], Open), c := Idle(u.p, u.p), b := Known(u), k3 := Wired, k2 := Wired)
    ensures Reaches(u, First(u, 0))
  {
    hide Reaches;
    var w1 := x.(b := Idle(u.p, u.p), k1 := Ordered(u));
    OrderGoesUp(u, x, 2, w1);
    var w2 := w1.(a := Known(u), k1 := Wired);
    OrderArrives(u, w1, 1, w2);
    var w3 := w2.(a := Idle(u.p, u.p), k0 := Ordered(u));
    OrderGoesUp(u, w2, 1, w3);
    assert Copies(u.e, 0) == [] && Nexts([]) == [] && Ones(0) == [];
    SourceSubscribed(u, w3, First(u, 0));
  }

  // ----- Rounds -----

  /** An element passes through a stage, which orders another. */
  lemma MapPasses(u: Setup, x: Line, i: nat, d: nat, y: Line)
    requires u.Valid() && Reaches(u, x) && 1 <= i <= 3 && 0 < d <= u.p
    requires NetOf(x).actors[i] == MapActor(Idle(d, u.p))
    requires NetOf(x).links[i - 1].down != [] && NetOf(x).links[i - 1].down[0] == Next(u.e)
    requires NetOf(y).actors == NetOf(x).actors[i := MapActor(Idle(d - 1, u.p))]
    requires var k := NetOf(x).links[i - 1];
             NetOf(y).links[i - 1] == k.(down := k.down[1..], up := k.up + [Request(1)], recv := k.recv + [u.e])
    requires var k := NetOf(x).links[i]; NetOf(y).links[i] == k.(down := k.down + [Next(u.e)], sent := k.sent + [u.e])
    requires forall l :: 0 <= l < 4 && l != i && l != i - 1 ==> NetOf(y).links[l] == NetOf(x).links[l]
    ensures Reaches(u, y)
  {
    hide Reaches;
    Passes(u, d);
    var r := Reaction(Idle(d - 1, u.p), false, 1, false, [u.e], More);
    assert ToUp(r) == [Request(1)] && ToDown(r) == [Next(u.e)];
    hide StageReceive, ToUp, ToDown;
    MapHears(u, x, Down(i - 1), i, FromUp(Next(u.e)), r, y);
  }

  lemma CopiesGrow(e: Elem, n: nat)
    ensures Copies(e, n) + [e] == Copies(e, n + 1) && Nexts(Copies(e, n)) + [Next(e)] == Nexts(Copies(e, n + 1))
    ensures Nexts(Copies(e, n + 1))[1..] == Nexts(Copies(e, n)) && Nexts(Copies(e, n + 1))[0] == Next(e)
    ensures Copies(e, n + 1)[1..] == Copies(e, n) && Copies(e, n + 1)[..1] == [e]
    ensures Ones(n) + [Request(1)] == Ones(n + 1) && Ones(n + 1)[1..] == Ones(n)
  {
  }

  /** The first half of a round: an element reaches the second stage and is replaced. */
  function Half(u: Setup, k: nat): Line
    requires k < u.p
  {
    First(u, k).(s := First(u, k + 1).s, k0 := First(u, k + 1).k0, a := Idle(u.p - 1, u.p),
                 k1 := Link(false, [], [Next(u.e)], Copies(u.e, k + 1), Copies(u.e, k)))
  }

  lemma RoundBegins(u: Setup, k: nat)
    requires u.Valid() && k < u.p && Reaches(u, First(u, k))
    ensures Reaches(u, Half(u, k))
  {
    hide Reaches;
    var x := First(u, k);
    CopiesGrow(u.e, u.p - 1);
    CopiesGrow(u.e, k);
    CopiesGrow(u.e, u.p + k);
    CopiesGrow(u.e, u.p - k - 1);
    var k0 := Link(false, [Request(1)], Nexts(Copies(u.e, u.p - 1)), Copies(u.e, u.p + k), Copies(u.e, k + 1));
    var y := Half(u, k).(s := x.s, k0 := k0);
    hide Copies, Nexts, Ones;
    MapPasses(u, x, 1, u.p, y);
    SourceServes(u, y, u.p - k - 1, Half(u, k));
  }

  lemma SourceServes(u: Setup, x: Line, n: nat, y: Line)
    requires Reaches(u, x) && x.s == Source(true, Copies(u.e, n + 1), false, false, false) && x.k0.up == [Request(1)]
    requires y == x.(s := x.s.(rest := Copies(u.e, n)),
                     k0 := x.k0.(up := [], down := x.k0.down + [Next(u.e)], sent := x.k0.sent + [u.e]))
    ensures Reaches(u, y)
  {
    hide Reaches;
    CopiesGrow(u.e, n);
    var r := Quiet(y.s).(elems := [u.e]);
    assert ToDown(r) == [Next(u.e)] && x.k0.up[1..] == [];
    SourceHears(u, x, Request(1), r, y);
  }

  /** The second stage has passed it on, and the first has been asked for the next. */
  function Later(u: Setup, k: nat): Line
    requires k < u.p
  {
    First(u, k + 1).(c := Idle(u.p - k, u.p), k3 := First(u, k).k3,
                     k2 := Link(false, Ones(k), [Next(u.e)], Copies(u.e, k + 1), Copies(u.e, k)))
  }

  function Asking(u: Setup, k: nat): Line
    requires k < u.p
  {
    Later(u, k).(a := Idle(u.p - 1, u.p), k1 := Link(false, [Request(1)], [], Copies(u.e, k + 1), Copies(u.e, k + 1)))
  }

  lemma RoundGoesOn(u: Setup, k: nat)
    requires u.Valid() && k < u.p && Reaches(u, Half(u, k))
    ensures Reaches(u, Asking(u, k))
  {
    hide Reaches;
    CopiesGrow(u.e, k);
    assert [Next(u.e)][1..] == [];
    hide Copies, Nexts, Ones;
    MapPasses(u, Half(u, k), 2, u.p - k, Asking(u, k));
  }

  lemma RoundAsks(u: Setup, k: nat)
    requires u.Valid() && k < u.p && Reaches(u, Asking(u, k))
    ensures Reaches(u, Later(u, k))
  {
    Asks(u);
    hide Reaches, StageReceive, Copies, Nexts, Ones;
    assert [Request(1)][1..] == [];
    QuietRequest(u, Asking(u, k), Request(1), 1, Idle(u.p, u.p), Later(u, k));
  }

  lemma RoundEnds(u: Setup, k: nat)
    requires u.Valid() && k < u.p && Reaches(u, Later(u, k))
    ensures Reaches(u, First(u, k + 1))
  {
    hide Reaches;
    CopiesGrow(u.e, k);
    assert [Next(u.e)][1..] == [];
    hide Copies, Nexts, Ones;
    MapPasses(u, Later(u, k), 3, u.p - k, First(u, k + 1));
  }

  lemma {:induction false} Rounds(u: Setup, k: nat)
    requires u.Valid() && k <= u.p
    ensures Reaches(u, First(u, k))
  {
    hide Reaches;
    if k == 0 {
      WiresUp(u);
    } else {
      Rounds(u, k - 1);
      RoundBegins(u, k - 1);
      RoundGoesOn(u, k - 1);
      RoundAsks(u, k - 1);
      RoundEnds(u, k - 1);
    }
  }

  /** The first stage hands over another `j` elements, which wait for the second. */
  function Second(u: Setup, j: nat): Line
    requires j <= u.p
  {
    First(u, u.p).(a := Idle(u.p - j, u.p),
                   k0 := Link(false, Ones(j), Nexts(Copies(u.e, u.p - j)), Copies(u.e, 2 * u.p), Copies(u.e, u.p + j)),
                   k1 := Link(false, [], Nexts(Copies(u.e, j)), Copies(u.e, u.p + j), Copies(u.e, u.p)))
  }

  lemma {:induction false} HandsOver(u: Setup, j: nat)
    requires u.Valid() && j <= u.p
    ensures Reaches(u, Second(u, j))
  {
    hide Reaches;
    if j == 0 {
      Rounds(u, u.p);
      assert Ones(0) == [] && Nexts(Copies(u.e, 0)) == [];
    } else {
      HandsOver(u, j - 1);
      CopiesGrow(u.e, u.p - j);
      CopiesGrow(u.e, u.p + j - 1);
      CopiesGrow(u.e, j - 1);
      hide Copies, Nexts, Ones;
      MapPasses(u, Second(u, j - 1), 1, u.p - j + 1, Second(u, j));
    }
  }

  // ----- The peaks -----

  const Ended := Stage(true, true, [], 0, 0, true, true, true)

  /** The source is exhausted, the first stage has completed, and nothing has been taken in by the second stage. */
  function Peak(u: Setup): Line
    requires u.Valid()
  {
    Second(u, u.p).(s := Source(true, [], false, true, true), a := Ended,
                    k0 := Link(false, Ones(u.p - 1), [], Copies(u.e, 2 * u.p), Copies(u.e, 2 * u.p)),
                    k1 := Link(false, [], Nexts(Copies(u.e, u.p)) + [Complete], Copies(u.e, 2 * u.p), Copies(u.e, u.p)))
  }

  lemma ReachesPeak(u: Setup)
    requires u.Valid()
    ensures Reaches(u, Peak(u))
  {
    hide Reaches;
    HandsOver(u, u.p);
    var x, y := Second(u, u.p), Peak(u);
    CopiesGrow(u.e, u.p - 1);
    assert Copies(u.e, 0) == [] && Nexts([]) == [];
    var half := x.(s := y.s, k0 := y.k0.(down := [Complete]));
    var r := Quiet(y.s).(end := Done);
    assert ToDown(r) == [Complete] && Gave(x.k0, FromDown(Request(1)), r) == half.k0;
    SourceHears(u, x, Request(1), r, half);
    var done := Reaction(Ended, false, 0, false, [], Done);
    assert ToDown(done) == [Complete] && ToUp(done) == [] && [Complete][1..] == [];
    assert StageReceive(u.Cfg(), x.a, FromUp(Complete)) == done by { assert [][..0] == x.a.buf; }
    hide StageReceive;
    assert Took(half.k0, FromUp(Complete), done) == y.k0 && Gave(half.k1, FromUp(Complete), done) == y.k1;
    MapHears(u, half, Down(0), 1, FromUp(Complete), done, y);
  }

  /** The bound is reached in a run in which nothing fails. */
  lemma BoundIsReached(u: Setup) returns (evs: seq<Event>, net: Net)
    requires u.Valid()
    ensures u.G().Valid() && SamePrefetch(u.G()) && WellShaped(u.G(), net) && Run(u.G(), evs, net) && NoKill(evs)
    ensures net.actors[2].Live() && Unprocessed(net, 2) == 2 * u.p + 1 && !EndsWith(FromBelow(net, 2), Cancel)
    ensures u.accepts(u.e) ==> !Faulty(u.G())
  {
    ReachesPeak(u);
    hide Run, Peak, Unprocessed, FromBelow, SamePrefetch, Faulty;
    PeakCount(u);
    net := NetOf(Peak(u));
    evs :| Run(u.G(), evs, net) && NoKill(evs);
    if u.accepts(u.e) { NoFault(u); }
  }

  lemma PeakCount(u: Setup)
    requires u.Valid()
    ensures u.G().Valid() && SamePrefetch(u.G())
    ensures var net := NetOf(Peak(u));
            net.actors[2].Live() && Unprocessed(net, 2) == 2 * u.p + 1 && !EndsWith(FromBelow(net, 2), Cancel)
  {
  }

  lemma {:induction false} SameAllAlong(u: Setup, i: nat)
    requires u.Valid() && i <= 3
    ensures Flow(u.G(), i) == Copies(u.e, 2 * u.p)
    ensures i > 0 ==> Flow(u.G(), i - 1) == Copies(u.e, 2 * u.p)
  {
    if i > 0 {
      SameAllAlong(u, i - 1);
      SamePassed(u, 2 * u.p);
    }
  }

  lemma {:induction false} SamePassed(u: Setup, n: nat)
    requires u.Valid()
    ensures FilterMap(u.f, Copies(u.e, n)) == Copies(u.e, n)
  {
    if n > 0 {
      SamePassed(u, n - 1);
      assert Copies(u.e, n)[..n - 1] == Copies(u.e, n - 1);
      CopiesGrow(u.e, n - 1);
    }
  }

  lemma NoFault(u: Setup)
    requires u.Valid() && u.accepts(u.e)
    ensures !Faulty(u.G())
  {
    SameAllAlong(u, 1);
    SameAllAlong(u, 2);
    SameAllAlong(u, 3);
    hide Flow;
  }

  /** The sink refuses its first element. */
  function Refused(u: Setup): Line
    requires u.Valid()
  {
    Peak(u).(z := Sink(true, [], Failed),
             k3 := Link(false, [Cancel], Nexts(Copies(u.e, u.p - 1)), Copies(u.e, u.p), [u.e]))
  }

  lemma SinkRefuses(u: Setup)
    requires u.Valid() && !u.accepts(u.e)
    ensures Reaches(u, Refused(u))
  {
    ReachesPeak(u);
    hide Reaches;
    CopiesGrow(u.e, u.p - 1);
    var r := Quiet(Sink(true, [], Failed)).(cancel := true);
    assert ToUp(r) == [Cancel] && [] + [u.e] == [u.e];
    SinkHears(u, Peak(u), Down(3), FromUp(Next(u.e)), r, Refused(u));
  }

  /** The third stage passes the cancellation on. */
  function CancelledFrom(u: Setup): Line
    requires u.Valid()
  {
    var x := Refused(u);
    x.(c := x.c.(terminated := true), k2 := x.k2.(up := Ones(u.p) + [Cancel]), k3 := x.k3.(up := []))
  }

  lemma CancelGoesUp(u: Setup)
    requires u.Valid() && !u.accepts(u.e)
    ensures Reaches(u, CancelledFrom(u))
  {
    SinkRefuses(u);
    hide Reaches;
    var x, y := Refused(u), CancelledFrom(u);
    var r := Reaction(y.c, false, 0, true, [], More);
    assert StageReceive(u.Cfg(), x.c, FromDown(Cancel)) == r && ToUp(r) == [Cancel] && [Cancel][1..] == [];
    GaveNothing(x.k3, FromDown(Cancel), r);
    assert Took(x.k2, FromDown(Cancel), r) == y.k2;
    hide StageReceive, ToUp, Took, Gave, Ones, Copies, Nexts;
    MapHears(u, x, Up(3), 3, FromDown(Cancel), r, y);
  }

  /** If the sink refuses its first element, the cancellation it causes comes on top. */
  lemma CancellationComesOnTop(u: Setup) returns (evs: seq<Event>, net: Net)
    requires u.Valid() && !u.accepts(u.e)
    ensures u.G().Valid() && SamePrefetch(u.G()) && WellShaped(u.G(), net) && Run(u.G(), evs, net) && NoKill(evs)
    ensures net.actors[2].Live() && Unprocessed(net, 2) == 2 * u.p + 2
  {
    CancelGoesUp(u);
    net := NetOf(CancelledFrom(u));
    evs :| Run(u.G(), evs, net) && NoKill(evs);
    hide Run;
  }

  /** The least mailbox capacity a graph accepts to run with. */
  const MIN_MAILBOX_CAPACITY: nat := 32

  /** With the default sizes, a running stage can have one message more to handle than that capacity, and two more
      after a failure. */
  lemma DefaultsExceedMinimum(e: Elem, f: Elem -> Outcome, accepts: Elem -> bool) returns (evs: seq<Event>, net: Net)
    requires f(e) == Emit(e)
    ensures var u := Setup(e, f, 16, 256, accepts);
            && WellShaped(u.G(), net) && Run(u.G(), evs, net) && NoKill(evs) && net.actors[2].Live()
            && Unprocessed(net, 2) == MIN_MAILBOX_CAPACITY + if accepts(e) then 1 else 2
  {
    var u := Setup(e, f, 16, 256, accepts);
    hide Run;
    if accepts(e) { evs, net := BoundIsReached(u); } else { evs, net := CancellationComesOnTop(u); }
  }
}
