/** One stream stage at a time: what a source, a map stage and a sink do with one message.

    Each kind of stage has a `Receive` function that gives, in closed form, the new stage state and the
    messages told upstream and downstream, and a class whose methods change the fields step by step, with
    the loops of the runtime, and are proved to agree with it.
 */
module StreamStages {
  import opened Basics

  /** Elements are opaque: no stage looks inside one. */
  type Elem(!new)

  /** What a transform does with an element: emit a value, drop it, or raise. */
  datatype Outcome = Emit(value: Elem) | Drop | Raise

  datatype UpMsg = Subscribe | Request(n: int) | Cancel
  datatype DownMsg = Next(elem: Elem) | Complete | Error

  /** A stage hears from the wiring thread, from its downstream neighbour or from its upstream one. */
  datatype Msg = SetUpstream | FromDown(up: UpMsg) | FromUp(down: DownMsg)

  /** How a stage ends its output: not yet, in the regular way, or with an error. */
  datatype End = More | Done | Fault

  /** What a stage does with one message: its new state, what it tells upstream (subscribe, order `request`
      elements, cancel) and what it tells downstream (elements, then perhaps its end). */
  datatype Reaction<S> =
    Reaction(state: S, subscribe: bool, request: int, cancel: bool, elems: seq<Elem>, end: End)

  function Quiet<S>(s: S): Reaction<S> { Reaction(s, false, 0, false, [], More) }

  function Nexts(es: seq<Elem>): (r: seq<DownMsg>)
    ensures |r| == |es|
    ensures forall k :: 0 <= k < |es| ==> r[k] == Next(es[k])
  {
    seq(|es|, k requires 0 <= k < |es| => Next(es[k]))
  }

  function ToUp<S>(r: Reaction<S>): seq<UpMsg> {
    (if r.subscribe then [Subscribe] else []) + (if r.request > 0 then [Request(r.request)] else [])
    + (if r.cancel then [Cancel] else [])
  }

  function ToDown<S>(r: Reaction<S>): seq<DownMsg> {
    Nexts(r.elems) + (match r.end case More => [] case Done => [Complete] case Fault => [Error])
  }

  // ----- Map stages -----

  datatype StageCfg = StageCfg(transform: Elem -> Outcome, prefetch: nat, maxbuf: nat) {
    /** The constructor check of a stage. */
    predicate Valid() { 0 < prefetch <= maxbuf }
  }

  datatype Stage = Stage(hasUp: bool, hasDown: bool, buf: seq<Elem>, demand: nat, inFlight: nat,
                         upClosed: bool, terminated: bool, completionSent: bool)

  const FreshStage := Stage(false, false, [], 0, 0, false, false, false)

  /** How much a stage keeps buffered or on order while it is connected on both sides. */
  function Target(cfg: StageCfg, s: Stage): int {
    Min(cfg.maxbuf, Max(cfg.prefetch, s.demand))
  }

  function StagePull(cfg: StageCfg, s: Stage): (r: Reaction<Stage>) {
    var missing := Target(cfg, s) - (|s.buf| + s.inFlight);
    if s.hasUp && s.hasDown && !s.upClosed && !s.terminated && missing > 0 then
      Reaction(s.(inFlight := s.inFlight + missing), false, missing, false, [], More)
    else
      Quiet(s)
  }

  lemma PullIsQuiet(cfg: StageCfg, s: Stage)
    ensures var r := StagePull(cfg, s);
            !r.subscribe && !r.cancel && r.elems == [] && r.end == More
  {
  }

  /** Hand over as much of the buffer as there is demand for; then complete, or order more. */
  function StagePush(cfg: StageCfg, s: Stage): (r: Reaction<Stage>) {
    var k := if s.hasDown then Min(s.demand, |s.buf|) else 0;
    var s1 := s.(buf := s.buf[k..], demand := s.demand - k);
    if s.upClosed && s1.buf == [] && s.hasDown && !s.completionSent then
      Reaction(s1.(completionSent := true, terminated := true), false, 0, false, s.buf[..k], Done)
    else
      StagePull(cfg, s1).(elems := s.buf[..k])
  }

  /** Stop, telling upstream to cancel and downstream that the stream failed. */
  function StageFail(s: Stage): (r: Reaction<Stage>) {
    Reaction(s.(terminated := true, buf := []), false, 0, s.hasUp, [], if s.hasDown then Fault else More)
  }

  function StageReceive(cfg: StageCfg, s: Stage, m: Msg): (r: Reaction<Stage>) {
    if s.terminated then Quiet(s) else
    match m
    case SetUpstream => StagePull(cfg, s.(hasUp := true)).(subscribe := true)
    case FromDown(Subscribe) => StagePull(cfg, s.(hasDown := true))
    case FromDown(Request(n)) =>
      if n > 0 then StagePush(cfg, s.(demand := s.demand + n)) else StageFail(s)
    case FromDown(Cancel) => StageFail(s).(end := More)
    case FromUp(Next(e)) =>
      var s1 := s.(inFlight := Max(0, s.inFlight - 1));
      (match cfg.transform(e)
       case Raise => StageFail(s1)
       case Drop => StagePush(cfg, s1)
       case Emit(y) =>
         if |s.buf| >= cfg.maxbuf then StageFail(s1)
         else StagePush(cfg, s1.(buf := s.buf + [y])))
    case FromUp(Complete) => StagePush(cfg, s.(upClosed := true, inFlight := 0))
    case FromUp(Error) => StageFail(s).(cancel := false)
  }

  class MapStage {
    const cfg: StageCfg
    var hasUp: bool
    var hasDown: bool
    var buf: seq<Elem>
    var demand: nat
    var inFlight: nat
    var upClosed: bool
    var terminated: bool
    var completionSent: bool

    ghost function View(): Stage
      reads this
    {
      Stage(hasUp, hasDown, buf, demand, inFlight, upClosed, terminated, completionSent)
    }

    constructor (cfg: StageCfg)
      requires cfg.Valid()
      ensures this.cfg == cfg && View() == FreshStage
    {
      this.cfg := cfg;
      hasUp, hasDown, buf, demand, inFlight := false, false, [], 0, 0;
      upClosed, terminated, completionSent := false, false, false;
    }

    method MaybePull() returns (toUp: seq<UpMsg>)
      modifies this
      ensures var r := StagePull(cfg, old(View()));
              && View() == r.state && toUp == ToUp(r) && [] == ToDown(r)
              && [Subscribe] + toUp == ToUp(r.(subscribe := true)) && [] == ToDown(r.(subscribe := true))
      ensures terminated == old(terminated) && completionSent == old(completionSent)
    {
      toUp := [];
      if !hasUp || !hasDown || upClosed || terminated { return; }
      var buffered := |buf| + inFlight;
      var target := Min(cfg.maxbuf, Max(cfg.prefetch, demand));
      var request := Min(cfg.maxbuf - buffered, target - buffered);
      if request > 0 {
        inFlight := inFlight + request;
        toUp := [Request(request)];
      }
    }

    /** The delivery loop of a push. */
    method HandOver() returns (toDown: seq<DownMsg>)
      modifies this`buf, this`demand
      ensures var k := if hasDown then Min(old(demand), |old(buf)|) else 0;
              && buf == old(buf)[k..] && demand == old(demand) - k && toDown == Nexts(old(buf)[..k])
    {
      ghost var k := 0;
      toDown := [];
      while demand > 0 && buf != [] && hasDown
        invariant 0 <= k <= |old(buf)| && k <= old(demand) && (!hasDown ==> k == 0)
        invariant buf == old(buf)[k..] && demand == old(demand) - k
        invariant toDown == Nexts(old(buf)[..k])
        decreases demand
      {
        toDown := toDown + [Next(buf[0])];
        buf := buf[1..];
        demand := demand - 1;
        k := k + 1;
      }
    }

    method Push() returns (stop: bool, toUp: seq<UpMsg>, toDown: seq<DownMsg>)
      requires !terminated
      modifies this
      ensures var r := StagePush(cfg, old(View())); View() == r.state && toUp == ToUp(r) && toDown == ToDown(r)
      ensures stop == terminated && (completionSent ==> old(completionSent) || terminated)
    {
      hide StagePull;
      toUp := [];
      toDown := HandOver();
      if upClosed && buf == [] && hasDown && !completionSent {
        completionSent := true;
        terminated := true;
        toDown := toDown + [Complete];
        return true, [], toDown;
      }
      ghost var s1 := View();
      toUp := MaybePull();
      PullIsQuiet(cfg, s1);
      stop := false;
    }

    method FailStream() returns (toUp: seq<UpMsg>, toDown: seq<DownMsg>)
      requires !terminated
      modifies this
      ensures var r := StageFail(old(View())); View() == r.state && toUp == ToUp(r) && toDown == ToDown(r)
      ensures terminated
    {
      terminated := true;
      buf := [];
      toUp := if hasUp then [Cancel] else [];
      toDown := if hasDown then [Error] else [];
    }

    method OnNext(e: Elem) returns (stop: bool, toUp: seq<UpMsg>, toDown: seq<DownMsg>)
      requires !terminated && !completionSent
      modifies this
      ensures var r := StageReceive(cfg, old(View()), FromUp(Next(e)));
              View() == r.state && toUp == ToUp(r) && toDown == ToDown(r)
      ensures stop == terminated && (completionSent ==> terminated)
    {
      hide StagePush, StageFail, ToUp, ToDown;
      if inFlight > 0 { inFlight := inFlight - 1; }
      var y := cfg.transform(e);
      if y.Raise? || (y.Emit? && |buf| >= cfg.maxbuf) {
        toUp, toDown := FailStream();
        stop := true;
      } else {
        if y.Emit? { buf := buf + [y.value]; }
        stop, toUp, toDown := Push();
      }
    }

    method Receive(m: Msg) returns (stop: bool, toUp: seq<UpMsg>, toDown: seq<DownMsg>)
      requires completionSent ==> terminated
      modifies this
      ensures var r := StageReceive(cfg, old(View()), m);
              View() == r.state && toUp == ToUp(r) && toDown == ToDown(r)
      ensures stop == terminated && (completionSent ==> terminated)
    {
      hide StagePush, StagePull;
      stop, toUp, toDown := false, [], [];
      if terminated { return true, [], []; }
      match m
      case SetUpstream =>
        hasUp := true;
        var pulled := MaybePull();
        toUp := [Subscribe] + pulled;
      case FromDown(Subscribe) =>
        hasDown := true;
        toUp := MaybePull();
      case FromDown(Request(n)) =>
        if n > 0 {
          demand := demand + n;
          stop, toUp, toDown := Push();
        } else {
          toUp, toDown := FailStream();
          stop := true;
        }
      case FromDown(Cancel) =>
        terminated := true;
        buf := [];
        toUp := if hasUp then [Cancel] else [];
        stop := true;
      case FromUp(Next(e)) =>
        stop, toUp, toDown := OnNext(e);
      case FromUp(Complete) =>
        upClosed := true;
        inFlight := 0;
        stop, toUp, toDown := Push();
      case FromUp(Error) =>
        terminated := true;
        buf := [];
        toDown := if hasDown then [Error] else [];
        stop := true;
    }
  }

  // ----- Sources -----

  /** `rest` is what the iterator still holds; at its end it stops or, when `raises`, it raises. */
  datatype Source = Source(hasDown: bool, rest: seq<Elem>, raises: bool, exhausted: bool, terminated: bool)

  function SourceReceive(s: Source, m: Msg): (r: Reaction<Source>) {
    if s.terminated then Quiet(s) else
    match m
    case FromDown(Subscribe) => Quiet(s.(hasDown := true))
    case FromDown(Request(n)) =>
      if n <= 0 then
        Quiet(s.(terminated := true)).(end := if s.hasDown then Fault else More)
      else if !s.hasDown then
        Quiet(s)
      else if n <= |s.rest| then
        Quiet(s.(rest := s.rest[n..])).(elems := s.rest[..n])
      else if s.raises then
        Quiet(s.(rest := [], terminated := true)).(elems := s.rest, end := Fault)
      else
        Quiet(s.(rest := [], exhausted := true, terminated := true)).(elems := s.rest, end := Done)
    case FromDown(Cancel) => Quiet(s.(terminated := true))
    case SetUpstream => Quiet(s)
    case FromUp(_) => Quiet(s)
  }

  class SourceFromIterable {
    const raises: bool
    var hasDown: bool
    var rest: seq<Elem>
    var exhausted: bool
    var terminated: bool

    ghost function View(): Source
      reads this
    {
      Source(hasDown, rest, raises, exhausted, terminated)
    }

    constructor (items: seq<Elem>, raises: bool)
      ensures View() == Source(false, items, raises, false, false)
    {
      this.raises := raises;
      hasDown, rest, exhausted, terminated := false, items, false, false;
    }

    method Receive(m: Msg) returns (stop: bool, toDown: seq<DownMsg>)
      requires exhausted ==> terminated
      modifies this
      ensures var r := SourceReceive(old(View()), m); View() == r.state && [] == ToUp(r) && toDown == ToDown(r)
      ensures stop == terminated
      ensures exhausted ==> terminated
    {
      stop, toDown := false, [];
      if terminated { return true, []; }
      match m
      case FromDown(Subscribe) => hasDown := true;
      case FromDown(Request(n)) =>
        if n <= 0 {
          terminated := true;
          toDown := if hasDown then [Error] else [];
          return true, toDown;
        }
        var sent := 0;
        while sent < n && !exhausted && hasDown
          invariant 0 <= sent <= n && (!hasDown ==> sent == 0)
          invariant sent <= |old(rest)| && rest == old(rest)[sent..]
          invariant toDown == Nexts(old(rest)[..sent])
          invariant View() == old(View()).(rest := rest)
          decreases n - sent
        {
          if rest != [] {
            toDown := toDown + [Next(rest[0])];
            rest := rest[1..];
            sent := sent + 1;
          } else {
            assert old(rest)[..sent] == old(rest);
            if !raises { exhausted := true; }
            terminated := true;
            toDown := toDown + [if raises then Error else Complete];
            return true, toDown;
          }
        }
      case FromDown(Cancel) =>
        terminated := true;
        stop := true;
      case SetUpstream =>
      case FromUp(_) =>
    }
  }

  // ----- Sinks -----

  datatype SinkResult = Open | Succeeded(items: seq<Elem>) | Failed | Cancelled

  /** `items` are the elements the sink has consumed; a collecting sink returns them. */
  datatype Sink = Sink(hasUp: bool, items: seq<Elem>, result: SinkResult)

  /** A collecting sink accepts every element; a for-each sink rejects those its function raises on.
      `Request(prefetch)` is sent once, then one `Request(1)` for each element consumed. */
  function SinkReceive(accepts: Elem -> bool, prefetch: nat, s: Sink, m: Msg): (r: Reaction<Sink>) {
    if !s.result.Open? then Quiet(s) else
    match m
    case SetUpstream => Quiet(s.(hasUp := true)).(subscribe := true, request := prefetch)
    case FromUp(Next(e)) =>
      if accepts(e) then Quiet(s.(items := s.items + [e])).(request := if s.hasUp then 1 else 0)
      else Quiet(s.(result := Failed)).(cancel := s.hasUp)
    case FromUp(Complete) => Quiet(s.(result := Succeeded(s.items)))
    case FromUp(Error) => Quiet(s.(result := Failed))
    case FromDown(Cancel) => Quiet(s.(result := Cancelled)).(cancel := s.hasUp)
    case FromDown(_) => Quiet(s)
  }

  class SinkStage {
    const accepts: Elem -> bool
    const prefetch: nat
    var hasUp: bool
    var items: seq<Elem>
    var result: SinkResult

    ghost function View(): Sink
      reads this
    {
      Sink(hasUp, items, result)
    }

    constructor (accepts: Elem -> bool, prefetch: nat)
      ensures this.accepts == accepts && this.prefetch == prefetch
      ensures View() == Sink(false, [], Open)
    {
      this.accepts := accepts;
      this.prefetch := prefetch;
      hasUp, items, result := false, [], Open;
    }

    /** The runtime delivers nothing to a stopped actor, so `result` is still open on entry. */
    method Receive(m: Msg) returns (stop: bool, toUp: seq<UpMsg>)
      requires result.Open? && prefetch > 0
      modifies this
      ensures var r := SinkReceive(accepts, prefetch, old(View()), m);
              View() == r.state && toUp == ToUp(r) && [] == ToDown(r)
      ensures stop == !result.Open?
    {
      stop, toUp := false, [];
      match m
      case SetUpstream =>
        hasUp := true;
        toUp := [Subscribe, Request(prefetch)];
      case FromUp(Next(e)) =>
        if accepts(e) {
          items := items + [e];
          if hasUp { toUp := [Request(1)]; }
        } else {
          result := Failed;
          if hasUp { toUp := [Cancel]; }
          stop := true;
        }
      case FromUp(Complete) =>
        result := Succeeded(items);
        stop := true;
      case FromUp(Error) =>
        result := Failed;
        stop := true;
      case FromDown(Cancel) =>
        if hasUp { toUp := [Cancel]; }
        result := Cancelled;
        stop := true;
      case FromDown(Subscribe) =>
      case FromDown(Request(_)) =>
    }
  }
}
