/** Senders and the writer task of one remoting connection, interleaved at every await. */
module TransportRuns {
  import opened Basics
  import opened Transport

  // ----- What the queues hold -----

  function OfChannel(records: seq<Record>, c: Channel): seq<Record> {
    if records == [] then []
    else
      var r := records[|records| - 1];
      OfChannel(records[..|records| - 1], c) + if r.channel == c then [r] else []
  }

  function QueueOf(o: Outbound, c: Channel): seq<Record> {
    if c in o.queues then o.queues[c] else []
  }

  function TerminalOf(o: Outbound, c: Channel): seq<Record> {
    if o.terminalPending && o.terminal.Some? && o.terminal.value.channel == c then [o.terminal.value] else []
  }

  /** What is still to be written for a channel, in order. */
  function Held(o: Outbound, c: Channel): seq<Record> {
    OfChannel(o.sending, c) + QueueOf(o, c) + TerminalOf(o, c)
  }

  /** The number or the size of some records. */
  function Measure(records: seq<Record>, bytes: bool): nat {
    if bytes then Size(records) else |records|
  }

  function Total(ready: seq<Channel>, queues: Queues, bytes: bool): nat {
    if ready == [] then 0
    else
      var c := ready[|ready| - 1];
      Total(ready[..|ready| - 1], queues, bytes) + if c in queues then Measure(queues[c], bytes) else 0
  }

  /** Everything admitted and not yet written. */
  function Stock(o: Outbound, bytes: bool): nat {
    Measure(o.sending, bytes) + Total(o.ready, o.queues, bytes)
    + if o.terminalPending && o.terminal.Some? then Measure([o.terminal.value], bytes) else 0
  }

  predicate OwnQueue(o: Outbound, c: Channel) {
    c in o.queues ==> forall k :: 0 <= k < |o.queues[c]| ==> o.queues[c][k].channel == c
  }

  ghost predicate Kept(o: Outbound) {
    && Served(o) && (forall c :: OwnQueue(o, c))
    && (o.terminalPending ==> o.terminal.Some?)
    && (o.terminal.Some? && !o.terminalPending ==> o.ready == [])
  }

  lemma {:induction false} OfChannelConcat(a: seq<Record>, b: seq<Record>, c: Channel)
    ensures OfChannel(a + b, c) == OfChannel(a, c) + OfChannel(b, c)
  {
    if b == [] {
      assert a + b == a;
    } else {
      var n := |b| - 1;
      assert (a + b)[..|a + b| - 1] == a + b[..n];
      OfChannelConcat(a, b[..n], c);
    }
  }

  lemma OfChannelOne(r: Record, c: Channel)
    ensures OfChannel([r], c) == if r.channel == c then [r] else []
  {
    assert [r][..0] == [];
  }

  lemma {:induction false} MeasureConcat(a: seq<Record>, b: seq<Record>, bytes: bool)
    ensures Measure(a + b, bytes) == Measure(a, bytes) + Measure(b, bytes)
  {
    if b == [] {
      assert a + b == a;
    } else {
      var n := |b| - 1;
      assert (a + b)[..|a + b| - 1] == a + b[..n];
      MeasureConcat(a, b[..n], bytes);
    }
  }

  lemma {:induction false} TotalConcat(a: seq<Channel>, b: seq<Channel>, queues: Queues, bytes: bool)
    ensures Total(a + b, queues, bytes) == Total(a, queues, bytes) + Total(b, queues, bytes)
  {
    if b == [] {
      assert a + b == a;
    } else {
      var n := |b| - 1;
      assert (a + b)[..|a + b| - 1] == a + b[..n];
      TotalConcat(a, b[..n], queues, bytes);
    }
  }

  lemma TotalOne(c: Channel, queues: Queues, bytes: bool)
    ensures Total([c], queues, bytes) == if c in queues then Measure(queues[c], bytes) else 0
  {
    assert [c][..0] == [];
  }

  /** The total over some channels does not depend on the queue of another. */
  lemma {:induction false} TotalElsewhere(ready: seq<Channel>, p: Queues, q: Queues, c: Channel, bytes: bool)
    requires c !in ready && forall d :: d != c ==> (d in p <==> d in q) && (d in p ==> p[d] == q[d])
    ensures Total(ready, p, bytes) == Total(ready, q, bytes)
  {
    if ready != [] { TotalElsewhere(ready[..|ready| - 1], p, q, c, bytes); }
  }

  // ----- Taking a record out -----

  lemma DequeueOwns(o: Outbound, c: Channel)
    requires CanDequeue(o) && OwnQueue(o, c)
    ensures OwnQueue(Dequeue(o), c)
  {
  }

  lemma QueueAfter(o: Outbound, c: Channel)
    requires CanDequeue(o)
    ensures var queue := o.queues[o.ready[0]];
            && Dequeue(o).sending == o.sending + [queue[0]] && TerminalOf(Dequeue(o), c) == TerminalOf(o, c)
            && if c == o.ready[0] then QueueOf(o, c) == [queue[0]] + QueueOf(Dequeue(o), c)
               else QueueOf(Dequeue(o), c) == QueueOf(o, c)
  {
    DequeueIs(o);
    hide Dequeue;
    var queue := o.queues[o.ready[0]];
    if |queue| == 1 { assert queue == [queue[0]] + []; } else { assert queue == [queue[0]] + queue[1..]; }
  }

  lemma DequeueHolds(o: Outbound, c: Channel)
    requires CanDequeue(o) && OwnQueue(o, o.ready[0])
    ensures Held(Dequeue(o), c) == Held(o, c)
  {
    assert o.queues[o.ready[0]][0].channel == o.ready[0];
    QueueAfter(o, c);
    hide OfChannel, Dequeue, OwnQueue, QueueOf, TerminalOf;
    var p, first := Dequeue(o), o.queues[o.ready[0]][0];
    OfChannelConcat(o.sending, [first], c);
    OfChannelOne(first, c);
    if c == o.ready[0] {
      assert OfChannel(o.sending, c) + [first] + QueueOf(p, c) == OfChannel(o.sending, c) + ([first] + QueueOf(p, c));
    } else {
      assert OfChannel(o.sending, c) + [] == OfChannel(o.sending, c);
    }
  }

  /** The totals before and after, over the channels that stay. */
  lemma DequeueTotals(o: Outbound, bytes: bool)
    requires Served(o) && CanDequeue(o)
    ensures var queue := o.queues[o.ready[0]];
            && Total(o.ready, o.queues, bytes) == Measure(queue, bytes) + Total(o.ready[1..], o.queues, bytes)
            && Total(Dequeue(o).ready, Dequeue(o).queues, bytes)
               == Total(o.ready[1..], o.queues, bytes) + Measure(queue[1..], bytes)
  {
    var front, rest := o.ready[0], o.ready[1..];
    assert o.ready == [front] + rest && front !in rest;
    DequeueIs(o);
    hide Served, Dequeue, Measure;
    var p := Dequeue(o);
    TotalConcat([front], rest, o.queues, bytes);
    TotalOne(front, o.queues, bytes);
    TotalElsewhere(rest, o.queues, p.queues, front, bytes);
    if |o.queues[front]| > 1 {
      TotalConcat(rest, [front], p.queues, bytes);
      TotalOne(front, p.queues, bytes);
    } else {
      assert rest + [] == rest && o.queues[front][1..] == [];
      EmptyMeasure(bytes);
    }
  }

  lemma DequeueStock(o: Outbound, bytes: bool)
    requires Served(o) && CanDequeue(o)
    ensures Stock(Dequeue(o), bytes) == Stock(o, bytes)
  {
    DequeueIs(o);
    DequeueTotals(o, bytes);
    hide Measure, Total, Served, Dequeue;
    var queue := o.queues[o.ready[0]];
    MeasureConcat(o.sending, [queue[0]], bytes);
    assert queue == [queue[0]] + queue[1..];
    MeasureConcat([queue[0]], queue[1..], bytes);
  }

  lemma EmptyMeasure(bytes: bool)
    ensures Measure([], bytes) == 0
  {
  }

  lemma DequeueKept(o: Outbound)
    requires Kept(o) && CanDequeue(o)
    ensures Kept(Dequeue(o))
  {
    DequeueServes(o);
    DequeueIs(o);
    hide Served, Dequeue;
    forall c ensures OwnQueue(Dequeue(o), c) {
      assert OwnQueue(o, c);
      DequeueOwns(o, c);
    }
  }

  lemma FinishKept(l: Limits, o: Outbound)
    requires Kept(o)
    ensures Kept(Finish(l, o))
  {
    forall c ensures OwnQueue(Finish(l, o), c) { assert OwnQueue(o, c); }
  }

  lemma NothingQueued(o: Outbound, c: Channel)
    requires Served(o) && o.ready == []
    ensures QueueOf(o, c) == []
  {
    assert c !in o.ready;
  }

  lemma TerminalTaken(o: Outbound, c: Channel)
    requires QueueOf(o, c) == [] && o.terminalPending && o.terminal.Some?
    ensures Held(o.(sending := o.sending + [o.terminal.value], terminalPending := false), c) == Held(o, c)
  {
    var last := o.terminal.value;
    OfChannelConcat(o.sending, [last], c);
    OfChannelOne(last, c);
    hide OfChannel;
    assert OfChannel(o.sending, c) + [] + TerminalOf(o, c) == OfChannel(o.sending, c) + OfChannel([last], c) + [] + [];
  }

  lemma WakeIsFree(o: Outbound, wake: bool, c: Channel)
    ensures Held(o.(wake := wake), c) == Held(o, c)
  {
    hide OfChannel;
  }

  lemma FinishHolds(l: Limits, o: Outbound, c: Channel)
    requires Kept(o)
    ensures Held(Finish(l, o), c) == Held(o, c)
  {
    hide Held;
    var p := if TakesTerminal(l, o) then o.(sending := o.sending + [o.terminal.value], terminalPending := false) else o;
    if TakesTerminal(l, o) {
      NothingQueued(o, c);
      TerminalTaken(o, c);
    }
    WakeIsFree(p, false, c);
  }

  lemma FinishStock(l: Limits, o: Outbound, bytes: bool)
    requires Kept(o)
    ensures Stock(Finish(l, o), bytes) == Stock(o, bytes)
  {
    if TakesTerminal(l, o) { MeasureConcat(o.sending, [o.terminal.value], bytes); }
    hide Measure, Total;
  }

  /** What gathering a batch leaves alone. */
  predicate SameRest(o: Outbound, p: Outbound) {
    && p.closed == o.closed && p.messages == o.messages && p.bytes == o.bytes && p.terminal == o.terminal
    && (p.terminalPending ==> o.terminalPending) && (p.ready != [] ==> o.ready != [])
    && (o.terminalPending && !p.terminalPending ==>
          p.sending != [] && o.terminal.Some? && p.sending[|p.sending| - 1] == o.terminal.value)
    && (!o.terminalPending ==> o.terminal.Some? && o.ready == [] ==> p.sending == o.sending)
    && (if p.sending == [] then !p.wake && p.ready == [] && !p.terminalPending else p.wake == o.wake)
  }

  lemma SameRestEarlier(o: Outbound, p: Outbound)
    requires CanDequeue(o) && SameRest(Dequeue(o), p) && (o.terminal.Some? ==> o.terminalPending)
    ensures SameRest(o, p)
  {
  }

  lemma SameRestAtEnd(l: Limits, o: Outbound)
    requires l.Valid() && !TakesMore(l, o) && (o.ready != [] ==> CanDequeue(o))
    requires (o.terminalPending ==> o.terminal.Some?) && (o.sending == [] || |o.sending| <= l.batchRecords)
    ensures SameRest(o, Finish(l, o))
  {
  }

  lemma KeptFront(o: Outbound)
    requires Kept(o)
    ensures (o.ready != [] ==> CanDequeue(o) && OwnQueue(o, o.ready[0]) && (o.terminal.Some? ==> o.terminalPending))
    ensures (o.terminalPending ==> o.terminal.Some?) && Served(o)
  {
    if o.ready != [] { ServedFront(o); }
    assert forall c :: OwnQueue(o, c);
  }

  lemma {:induction false} GatherKeeps(l: Limits, o: Outbound)
    requires l.Valid() && Kept(o) && (o.sending == [] || |o.sending| <= l.batchRecords)
    ensures Kept(Gather(l, o)) && SameRest(o, Gather(l, o))
    decreases l.batchRecords - |o.sending|
  {
    hide Kept, Finish, SameRest;
    KeptFront(o);
    if TakesMore(l, o) {
      DequeueKept(o);
      DequeueTakes(o);
      GatherKeeps(l, Dequeue(o));
      SameRestEarlier(o, Gather(l, o));
    } else {
      FinishKept(l, o);
      SameRestAtEnd(l, o);
    }
  }

  lemma {:induction false} GatherHolds(l: Limits, o: Outbound, c: Channel)
    requires Kept(o)
    ensures Held(Gather(l, o), c) == Held(o, c)
    decreases l.batchRecords - |o.sending|
  {
    hide Held, Kept, Finish;
    KeptFront(o);
    if TakesMore(l, o) {
      DequeueKept(o);
      DequeueHolds(o, c);
      hide Dequeue;
      GatherHolds(l, Dequeue(o), c);
    } else {
      FinishHolds(l, o, c);
    }
  }

  lemma {:induction false} GatherStock(l: Limits, o: Outbound, bytes: bool)
    requires Kept(o)
    ensures Stock(Gather(l, o), bytes) == Stock(o, bytes)
    decreases l.batchRecords - |o.sending|
  {
    hide Stock, Kept, Finish;
    KeptFront(o);
    if TakesMore(l, o) {
      DequeueKept(o);
      DequeueStock(o, bytes);
      hide Dequeue;
      GatherStock(l, Dequeue(o), bytes);
    } else {
      FinishStock(l, o, bytes);
    }
  }

  // ----- Runs -----

  /** Where the writer task is. The batch it is sending is its own, even when the connection is closed meanwhile. */
  datatype Pc = Waiting | Gathering | Sending(batch: seq<Record>) | Stopped

  /** `event` is the writer's event and `wakers` the wake-ups under way; the history is what was admitted and what
      was written in full. */
  datatype World = World(o: Outbound, pc: Pc, event: bool, wakers: nat, admitted: seq<Record>, wire: seq<Record>)

  datatype Event =
    | Sends(r: Record)
    | Ends(r: Record)
    | Wakes
    | Resumes
    | Gathers
    | SendDone
    | SendFails(count: nat)
    | Closes

  const InitWorld := World(FreshOutbound, Waiting, false, 0, [], [])

  predicate Enabled(w: World, ev: Event) {
    match ev
    case Sends(_) => true
    case Ends(r) => true
    case Wakes => w.wakers > 0
    case Resumes => w.pc.Waiting? && w.event
    case Gathers => w.pc.Gathering?
    case SendDone => w.pc.Sending?
    case SendFails(count) => w.pc.Sending? && count <= |w.pc.batch|
    case Closes => true
  }

  function Admitting(w: World, r: Record, p: Outbound, a: Admission): World {
    w.(o := p, admitted := if a.Admitted? then w.admitted + [r] else w.admitted,
       wakers := if a.Admitted? && a.mustWake then w.wakers + 1 else w.wakers)
  }

  function Next(l: Limits, w: World, ev: Event): World
    requires Enabled(w, ev)
  {
    match ev
    case Sends(r) => Admitting(w, r, Send(l, w.o, r).0, Send(l, w.o, r).1)
    case Ends(r) => Admitting(w, r, SendTerminal(w.o, r).0, SendTerminal(w.o, r).1)
    case Wakes => w.(wakers := w.wakers - 1, event := true)
    case Resumes => w.(event := false, pc := Gathering)
    case Gathers =>
      if w.o.closed then w.(pc := Stopped)
      else
        var p := Gather(l, w.o);
        w.(o := p, pc := if p.sending == [] then Waiting else Sending(p.sending))
    case SendDone =>
      if w.o.closed then w.(pc := Stopped, wire := w.wire + w.pc.batch)
      else w.(o := Sent(w.o), pc := Gathering, wire := w.wire + w.pc.batch)
    case SendFails(count) => w.(o := Close(w.o), pc := Stopped, wire := w.wire + w.pc.batch[..count])
    case Closes => w.(o := Close(w.o))
  }

  /** An event under the limits in force at the time: activation replaces them on a live connection. */
  datatype Step = Step(l: Limits, ev: Event)

  ghost predicate Runs(w0: World, steps: seq<Step>, w: World)
    decreases |steps|
  {
    if steps == [] then w == w0
    else
      && steps[0].l.Valid() && Enabled(w0, steps[0].ev)
      && Runs(Next(steps[0].l, w0, steps[0].ev), steps[1..], w)
  }

  // ----- The invariant -----

  function Batch(pc: Pc): seq<Record> {
    if pc.Sending? then pc.batch else []
  }

  /** Channel by channel, what was written, what is being sent and what is queued make up what was admitted. */
  predicate Conserved(w: World, c: Channel) {
    if w.o.closed then OfChannel(w.wire + Batch(w.pc), c) <= OfChannel(w.admitted, c)
    else OfChannel(w.admitted, c) == OfChannel(w.wire, c) + Held(w.o, c)
  }

  ghost predicate Counted(w: World) {
    !w.o.closed ==>
      && w.o.messages == Stock(w.o, false) && w.o.bytes == Stock(w.o, true)
      && |w.admitted| == |w.wire| + Stock(w.o, false) && Size(w.admitted) == Size(w.wire) + Stock(w.o, true)
  }

  predicate Placed(w: World) {
    && (w.pc.Stopped? ==> w.o.closed)
    && (!w.o.closed ==> w.o.sending == Batch(w.pc)) && (w.pc.Sending? && !w.o.closed ==> w.pc.batch != [])
  }

  predicate Awake(w: World) {
    !w.o.closed ==>
      && (w.o.ready != [] || w.o.terminalPending ==> w.o.wake)
      && (w.o.wake ==> w.wakers > 0 || w.event || !w.pc.Waiting?)
  }

  /** Once the terminal record has been taken out, it is the last one. */
  predicate Ended(w: World) {
    !w.o.closed && w.o.terminal.Some? && !w.o.terminalPending ==>
      var out := w.wire + w.o.sending;
      out != [] && out[|out| - 1] == w.o.terminal.value
  }

  ghost predicate AllConserved(w: World) {
    forall c :: Conserved(w, c)
  }

  ghost predicate Inv(w: World) {
    Kept(w.o) && AllConserved(w) && Counted(w) && Placed(w) && Awake(w) && Ended(w)
  }

  // ----- Admission -----

  lemma EnqueueIs(o: Outbound, r: Record, c: Channel)
    requires Kept(o) && o.terminal.None?
    ensures Held(Enqueue(o, r).0, c) == Held(o, c) + if r.channel == c then [r] else []
    ensures OwnQueue(Enqueue(o, r).0, c)
  {
    assert OwnQueue(o, c);
    hide OfChannel, Served;
    var p := Enqueue(o, r).0;
    if c == r.channel {
      assert QueueOf(p, c) == QueueOf(o, c) + [r];
      assert OfChannel(o.sending, c) + (QueueOf(o, c) + [r]) == OfChannel(o.sending, c) + QueueOf(o, c) + [r];
    }
  }

  lemma EnqueueServes(o: Outbound, r: Record)
    requires Served(o)
    ensures Served(Enqueue(o, r).0)
  {
    var p := Enqueue(o, r).0;
    forall c ensures c in p.queues <==> c in p.ready { }
  }

  lemma OldStock(o: Outbound, r: Record, bytes: bool, a: seq<Channel>, b: seq<Channel>)
    requires r.channel in o.queues && o.ready == a + [r.channel] + b && r.channel !in a && r.channel !in b
    ensures Stock(Enqueue(o, r).0, bytes) == Stock(o, bytes) + Measure([r], bytes)
  {
    hide Total, Measure, Enqueue;
    var p, c := Enqueue(o, r).0, r.channel;
    EnqueueOld(o, r);
    SplitTotal(a, c, b, o.queues, bytes);
    SplitTotal(a, c, b, p.queues, bytes);
    TotalElsewhere(a, o.queues, p.queues, c, bytes);
    TotalElsewhere(b, o.queues, p.queues, c, bytes);
    MeasureConcat(o.queues[c], [r], bytes);
  }

  lemma NewStock(o: Outbound, r: Record, bytes: bool)
    requires r.channel !in o.queues && r.channel !in o.ready
    ensures Stock(Enqueue(o, r).0, bytes) == Stock(o, bytes) + Measure([r], bytes)
  {
    hide Total, Measure, Enqueue;
    var p, c := Enqueue(o, r).0, r.channel;
    EnqueueNew(o, r);
    TotalConcat(o.ready, [c], p.queues, bytes);
    TotalOne(c, p.queues, bytes);
    TotalElsewhere(o.ready, o.queues, p.queues, c, bytes);
  }

  lemma EnqueueStock(o: Outbound, r: Record, bytes: bool)
    requires Served(o)
    ensures Stock(Enqueue(o, r).0, bytes) == Stock(o, bytes) + Measure([r], bytes)
  {
    hide Stock, Enqueue;
    var c := r.channel;
    if c in o.queues {
      var k :| 0 <= k < |o.ready| && o.ready[k] == c;
      assert o.ready == o.ready[..k] + [c] + o.ready[k + 1..];
      OldStock(o, r, bytes, o.ready[..k], o.ready[k + 1..]);
    } else {
      NewStock(o, r, bytes);
    }
  }

  lemma EnqueueOld(o: Outbound, r: Record)
    requires r.channel in o.queues
    ensures var p := Enqueue(o, r).0;
            && p.ready == o.ready && p.sending == o.sending && p.terminal == o.terminal
            && p.terminalPending == o.terminalPending
            && p.queues == o.queues[r.channel := o.queues[r.channel] + [r]]
  {
  }

  lemma EnqueueNew(o: Outbound, r: Record)
    requires r.channel !in o.queues
    ensures var p := Enqueue(o, r).0;
            && p.ready == o.ready + [r.channel] && p.sending == o.sending && p.terminal == o.terminal
            && p.terminalPending == o.terminalPending && p.queues == o.queues[r.channel := [r]]
  {
    assert [] + [r] == [r];
  }

  lemma SplitTotal(a: seq<Channel>, c: Channel, b: seq<Channel>, queues: Queues, bytes: bool)
    ensures Total(a + [c] + b, queues, bytes)
            == Total(a, queues, bytes) + (if c in queues then Measure(queues[c], bytes) else 0)
               + Total(b, queues, bytes)
  {
    TotalConcat(a + [c], b, queues, bytes);
    TotalConcat(a, [c], queues, bytes);
    TotalOne(c, queues, bytes);
  }

  lemma AdmittedOf(w: World, r: Record, c: Channel)
    ensures OfChannel(w.admitted + [r], c) == OfChannel(w.admitted, c) + if r.channel == c then [r] else []
  {
    OfChannelConcat(w.admitted, [r], c);
    OfChannelOne(r, c);
  }

  lemma CountOne(w: World, r: Record)
    ensures Size(w.admitted + [r]) == Size(w.admitted) + r.size
    ensures Measure([r], true) == r.size && Measure([r], false) == 1
  {
    SizeAppend(w.admitted, r);
    SizeAppend([], r);
    assert [] + [r] == [r];
  }

  lemma SendConserves(l: Limits, w: World, r: Record)
    requires Kept(w.o) && AllConserved(w) && Counted(w) && Send(l, w.o, r).1.Admitted?
    ensures AllConserved(Next(l, w, Sends(r))) && Counted(Next(l, w, Sends(r))) && Kept(Send(l, w.o, r).0)
  {
    hide OfChannel, Stock, Held, Measure;
    var v := Next(l, w, Sends(r));
    forall c ensures Conserved(v, c) && OwnQueue(v.o, c) {
      assert Conserved(w, c);
      EnqueueIs(w.o, r, c);
      AdmittedOf(w, r, c);
      hide OwnQueue;
      assert OfChannel(w.wire, c) + (Held(w.o, c) + if r.channel == c then [r] else [])
             == OfChannel(w.wire, c) + Held(w.o, c) + if r.channel == c then [r] else [];
    }
    EnqueueServes(w.o, r);
    EnqueueStock(w.o, r, false);
    EnqueueStock(w.o, r, true);
    CountOne(w, r);
    hide Served, OwnQueue, Conserved;
  }

  lemma SendKeeps(l: Limits, w: World, r: Record)
    requires Inv(w)
    ensures Inv(Next(l, w, Sends(r)))
  {
    hide AllConserved, Counted, Kept;
    if Send(l, w.o, r).1.Admitted? { SendConserves(l, w, r); }
  }

  lemma EndHolds(o: Outbound, r: Record, c: Channel)
    requires SendTerminal(o, r).1.Admitted? && !o.terminalPending
    ensures Held(SendTerminal(o, r).0, c) == Held(o, c) + if r.channel == c then [r] else []
  {
    hide OfChannel;
  }

  lemma EndStock(o: Outbound, r: Record, bytes: bool)
    requires SendTerminal(o, r).1.Admitted? && !o.terminalPending
    ensures Stock(SendTerminal(o, r).0, bytes) == Stock(o, bytes) + Measure([r], bytes)
  {
    hide Measure, Total;
  }

  lemma EndConserves(l: Limits, w: World, r: Record)
    requires Kept(w.o) && AllConserved(w) && Counted(w) && SendTerminal(w.o, r).1.Admitted?
    ensures AllConserved(Next(l, w, Ends(r))) && Counted(Next(l, w, Ends(r))) && Kept(SendTerminal(w.o, r).0)
  {
    hide OfChannel, Stock, Held, Measure;
    var v := Next(l, w, Ends(r));
    forall c ensures Conserved(v, c) && OwnQueue(v.o, c) {
      assert Conserved(w, c) && OwnQueue(w.o, c);
      EndHolds(w.o, r, c);
      AdmittedOf(w, r, c);
      hide OwnQueue;
      assert OfChannel(w.wire, c) + (Held(w.o, c) + if r.channel == c then [r] else [])
             == OfChannel(w.wire, c) + Held(w.o, c) + if r.channel == c then [r] else [];
    }
    EndStock(w.o, r, false);
    EndStock(w.o, r, true);
    CountOne(w, r);
    hide OwnQueue, Conserved;
  }

  lemma EndKeeps(l: Limits, w: World, r: Record)
    requires Inv(w)
    ensures Inv(Next(l, w, Ends(r)))
  {
    hide AllConserved, Counted, Kept;
    if SendTerminal(w.o, r).1.Admitted? { EndConserves(l, w, r); }
  }

  // ----- Writing -----

  lemma GatherConserves(l: Limits, w: World)
    requires l.Valid() && Kept(w.o) && AllConserved(w) && Counted(w) && w.pc.Gathering?
    ensures AllConserved(Next(l, w, Gathers)) && Counted(Next(l, w, Gathers))
  {
    hide OfChannel, Stock, Held, Kept, Gather;
    var v := Next(l, w, Gathers);
    forall c ensures Conserved(v, c) {
      assert Conserved(w, c);
      if !w.o.closed { GatherSame(l, w.o); GatherHolds(l, w.o, c); }
    }
    if !w.o.closed {
      GatherSame(l, w.o);
      GatherStock(l, w.o, false);
      GatherStock(l, w.o, true);
    }
  }

  lemma {:induction false} GatherSame(l: Limits, o: Outbound)
    ensures var p := Gather(l, o);
            p.closed == o.closed && p.messages == o.messages && p.bytes == o.bytes && p.terminal == o.terminal
    decreases l.batchRecords - |o.sending|
  {
    if TakesMore(l, o) { GatherSame(l, Dequeue(o)); }
  }

  lemma GatherStep(l: Limits, w: World)
    requires l.Valid() && Inv(w) && w.pc.Gathering?
    ensures Inv(Next(l, w, Gathers))
  {
    hide AllConserved, Counted, Kept, Gather;
    GatherConserves(l, w);
    if !w.o.closed {
      GatherKeeps(l, w.o);
      GatherEnds(l, w);
    }
  }

  lemma GatherEnds(l: Limits, w: World)
    requires Kept(w.o) && SameRest(w.o, Gather(l, w.o)) && Ended(w) && !w.o.closed && w.o.sending == []
    ensures Ended(w.(o := Gather(l, w.o)))
  {
    hide Gather;
  }

  lemma SentHolds(w: World, c: Channel)
    requires !w.o.closed && Conserved(w, c) && w.o.sending == Batch(w.pc)
    ensures OfChannel(w.admitted, c) == OfChannel(w.wire + Batch(w.pc), c) + Held(Sent(w.o), c)
  {
    OfChannelConcat(w.wire, Batch(w.pc), c);
    EmptyChannel(c);
    hide OfChannel;
    var rest := QueueOf(w.o, c) + TerminalOf(w.o, c);
    assert Held(w.o, c) == OfChannel(w.o.sending, c) + rest && Held(Sent(w.o), c) == [] + rest;
    assert OfChannel(w.wire, c) + (OfChannel(w.o.sending, c) + rest)
           == OfChannel(w.wire, c) + OfChannel(w.o.sending, c) + rest;
  }

  lemma EmptyChannel(c: Channel)
    ensures OfChannel([], c) == []
  {
  }

  lemma SentStock(o: Outbound, bytes: bool)
    ensures Stock(o, bytes) == Measure(o.sending, bytes) + Stock(Sent(o), bytes)
  {
    EmptyMeasure(bytes);
    hide Measure, Total;
  }

  lemma SentConserves(l: Limits, w: World)
    requires AllConserved(w) && Counted(w) && Placed(w) && w.pc.Sending?
    ensures AllConserved(Next(l, w, SendDone)) && Counted(Next(l, w, SendDone))
  {
    hide OfChannel, Held, Stock, Total;
    var v := Next(l, w, SendDone);
    if w.o.closed { assert v.wire + Batch(v.pc) == w.wire + Batch(w.pc); }
    forall c ensures Conserved(v, c) {
      assert Conserved(w, c);
      if !w.o.closed { SentHolds(w, c); }
    }
    hide Conserved, Batch;
    SentStock(w.o, false);
    SentStock(w.o, true);
    MeasureConcat(w.wire, w.pc.batch, true);
  }

  lemma SentKept(o: Outbound)
    requires Kept(o)
    ensures Kept(Sent(o))
  {
    forall c ensures OwnQueue(Sent(o), c) { assert OwnQueue(o, c); }
  }

  lemma SentKeeps(l: Limits, w: World)
    requires Inv(w) && w.pc.Sending?
    ensures Inv(Next(l, w, SendDone))
  {
    hide AllConserved, Counted, Kept;
    SentConserves(l, w);
    SentKept(w.o);
    assert w.wire + w.o.sending + [] == w.wire + w.o.sending;
  }

  lemma ClosedHolds(w: World, c: Channel, out: seq<Record>)
    requires Conserved(w, c) && (!w.o.closed ==> w.o.sending == Batch(w.pc))
    requires out <= w.wire + Batch(w.pc)
    ensures OfChannel(out, c) <= OfChannel(w.admitted, c)
  {
    var all := w.wire + Batch(w.pc);
    assert all == out + all[|out|..];
    OfChannelConcat(out, all[|out|..], c);
    if !w.o.closed { SentHolds(w, c); }
    hide OfChannel, Held;
  }

  lemma CloseKeeps(l: Limits, w: World, ev: Event)
    requires Inv(w) && Enabled(w, ev) && (ev.Closes? || ev.SendFails?)
    ensures Inv(Next(l, w, ev))
  {
    hide OfChannel, Held, Stock;
    var v := Next(l, w, ev);
    var out := v.wire + Batch(v.pc);
    assert out <= w.wire + Batch(w.pc);
    forall c ensures Conserved(v, c) && OwnQueue(v.o, c) {
      assert Conserved(w, c);
      ClosedHolds(w, c, out);
    }
    hide Conserved, OwnQueue;
  }

  lemma IdleKeeps(l: Limits, w: World, ev: Event)
    requires Inv(w) && Enabled(w, ev) && (ev.Wakes? || ev.Resumes?)
    ensures Inv(Next(l, w, ev))
  {
    hide OfChannel, Held, Stock, Kept;
    forall c ensures Conserved(Next(l, w, ev), c) { assert Conserved(w, c); }
  }

  lemma StepKeepsInv(l: Limits, w: World, ev: Event)
    requires l.Valid() && Inv(w) && Enabled(w, ev)
    ensures Inv(Next(l, w, ev))
  {
    hide Inv;
    match ev
    case Sends(r) => SendKeeps(l, w, r);
    case Ends(r) => EndKeeps(l, w, r);
    case Gathers => GatherStep(l, w);
    case SendDone => SentKeeps(l, w);
    case SendFails(_) => CloseKeeps(l, w, ev);
    case Closes => CloseKeeps(l, w, ev);
    case _ => IdleKeeps(l, w, ev);
  }

  lemma {:induction false} RunsKeepInv(w0: World, steps: seq<Step>, w: World)
    requires Inv(w0) && Runs(w0, steps, w)
    ensures Inv(w)
    decreases |steps|
  {
    hide Inv, Next;
    if steps != [] {
      StepKeepsInv(steps[0].l, w0, steps[0].ev);
      RunsKeepInv(Next(steps[0].l, w0, steps[0].ev), steps[1..], w);
    }
  }

  lemma InitInv()
    ensures Inv(InitWorld)
  {
    forall c ensures Conserved(InitWorld, c) && OwnQueue(InitWorld.o, c) { }
  }

  lemma ReachedInv(steps: seq<Step>, w: World)
    requires Runs(InitWorld, steps, w)
    ensures Inv(w)
  {
    hide Inv, Runs;
    InitInv();
    RunsKeepInv(InitWorld, steps, w);
  }

  // ----- The theorems -----

  /** The records written for a channel are, in order, the first ones admitted for it: none is lost, repeated or
      overtaken, however the channels are interleaved. */
  lemma ChannelsAreFifo(steps: seq<Step>, w: World, c: Channel)
    requires Runs(InitWorld, steps, w)
    ensures OfChannel(w.wire, c) <= OfChannel(w.admitted, c)
  {
    ReachedInv(steps, w);
    hide Kept, Counted;
    assert Conserved(w, c);
    ClosedHolds(w, c, w.wire);
  }

  /** The two counters are exactly the records and bytes queued, being sent or reserved for the end. */
  lemma CountersAreExact(steps: seq<Step>, w: World)
    requires Runs(InitWorld, steps, w) && !w.o.closed
    ensures w.o.messages == Stock(w.o, false) == |w.admitted| - |w.wire|
    ensures w.o.bytes == Stock(w.o, true) == Size(w.admitted) - Size(w.wire)
  {
    ReachedInv(steps, w);
    hide Kept, AllConserved, Stock;
  }

  /** Output left on an open connection never finds the writer asleep with no wake-up on its way. */
  lemma WriterIsWoken(steps: seq<Step>, w: World)
    requires Runs(InitWorld, steps, w)
    requires !w.o.closed && w.pc.Waiting? && (w.o.ready != [] || w.o.terminalPending)
    ensures w.wakers > 0 || w.event
  {
    ReachedInv(steps, w);
  }

  /** When the terminal record has gone out, every record admitted has gone out before it, and none can follow. */
  lemma TerminalIsLast(l: Limits, steps: seq<Step>, w: World, r: Record)
    requires Runs(InitWorld, steps, w)
    requires !w.o.closed && w.o.terminal.Some? && !w.o.terminalPending
    ensures var out := w.wire + w.o.sending;
            out != [] && out[|out| - 1] == w.o.terminal.value && |out| == |w.admitted|
    ensures Send(l, w.o, r).1.Refused? && SendTerminal(w.o, r).1.Refused?
  {
    ReachedInv(steps, w);
    assert w.o.ready == [] && Total(w.o.ready, w.o.queues, false) == 0;
    hide AllConserved;
  }

  // ----- The end of a connection -----

  /** What has left the queues: written, or in the batch the writer has in hand. */
  function Out(w: World): seq<Record> {
    w.wire + Batch(w.pc)
  }

  /** The terminal record `r` came after `before`, and is the last admitted. What has gone out is, channel by channel,
      some of `before`; or it is all of `before` and then `r`. */
  predicate EndsAt(w: World, before: seq<Record>, r: Record, c: Channel) {
    var out := Out(w);
    if |out| <= |before| then OfChannel(out, c) <= OfChannel(before, c)
    else |out| == |before| + 1 && out[|before|] == r && OfChannel(out[..|before|], c) == OfChannel(before, c)
  }

  ghost predicate EndedWith(w: World, before: seq<Record>, r: Record) {
    w.admitted == before + [r] && (w.o.closed || w.o.terminal == Some(r)) && forall c :: EndsAt(w, before, r, c)
  }

  /** While the terminal record waits, what has gone out and what is queued were admitted before it. */
  lemma PendingEnds(w: World, before: seq<Record>, r: Record, c: Channel)
    requires Conserved(w, c) && Counted(w) && Placed(w) && !w.o.closed && w.admitted == before + [r]
    requires w.o.terminal == Some(r) && w.o.terminalPending
    ensures EndsAt(w, before, r, c)
  {
    hide OfChannel, Total, Size;
    var out, queue := OfChannel(Out(w), c), QueueOf(w.o, c);
    OfChannelConcat(w.wire, w.o.sending, c);
    OfChannelConcat(before, [r], c);
    OfChannelOne(r, c);
    assert OfChannel(w.wire, c) + Held(w.o, c) == out + queue + TerminalOf(w.o, c);
    assert TerminalOf(w.o, c) == OfChannel([r], c);
    SameFront(OfChannel(before, c), out + queue, OfChannel([r], c));
  }

  lemma SameFront(a: seq<Record>, b: seq<Record>, tail: seq<Record>)
    requires a + tail == b + tail
    ensures a == b
  {
    assert |a| == |b|;
    assert a == (a + tail)[..|a|] && b == (b + tail)[..|b|];
  }

  lemma GoneEnds(w: World, before: seq<Record>, r: Record, c: Channel)
    requires Kept(w.o) && Conserved(w, c) && Counted(w) && Placed(w) && Ended(w) && !w.o.closed
    requires w.admitted == before + [r] && w.o.terminal == Some(r) && !w.o.terminalPending
    ensures EndsAt(w, before, r, c)
  {
    NothingQueued(w.o, c);
    assert Total(w.o.ready, w.o.queues, false) == 0;
    hide OfChannel, Total, Size, Kept;
    var out, n := Out(w), |before|;
    OfChannelConcat(w.wire, w.o.sending, c);
    OfChannelConcat(before, [r], c);
    assert OfChannel(w.wire, c) + Held(w.o, c) == OfChannel(out, c);
    assert |out| == n + 1 && out == out[..n] + [r];
    OfChannelConcat(out[..n], [r], c);
    SameFront(OfChannel(before, c), OfChannel(out[..n], c), OfChannel([r], c));
  }

  lemma OpenEnds(w: World, before: seq<Record>, r: Record)
    requires Inv(w) && !w.o.closed && w.o.terminal == Some(r) && w.admitted == before + [r]
    ensures EndedWith(w, before, r)
  {
    hide Kept, Counted, Placed, Ended, Awake, Conserved, EndsAt;
    forall c ensures EndsAt(w, before, r, c) {
      assert Conserved(w, c);
      if w.o.terminalPending { PendingEnds(w, before, r, c); } else { GoneEnds(w, before, r, c); }
    }
  }

  lemma EndStepIs(l: Limits, w: World, ev: Event)
    requires Enabled(w, ev) && Placed(w) && (w.o.closed || w.o.terminal.Some?)
    ensures var v := Next(l, w, ev);
            && v.admitted == w.admitted && (v.o.closed || v.o.terminal == w.o.terminal)
            && (w.o.closed ==> v.o.closed) && (v.o.closed ==> Out(v) <= Out(w))
  {
    hide Gather;
    if ev.Gathers? { GatherSame(l, w.o); }
  }

  /** A connection that is cut short has sent less of the same. */
  lemma ShorterEnds(w: World, v: World, before: seq<Record>, r: Record, c: Channel)
    requires EndsAt(w, before, r, c) && Out(v) <= Out(w)
    ensures EndsAt(v, before, r, c)
  {
    hide OfChannel;
    var a, b, n := Out(v), Out(w), |before|;
    if |a| <= n {
      var whole := if |b| <= n then b else b[..n];
      assert whole == a + whole[|a|..];
      OfChannelConcat(a, whole[|a|..], c);
    } else {
      assert a == b;
    }
  }

  lemma StepEnds(l: Limits, w: World, ev: Event, before: seq<Record>, r: Record)
    requires l.Valid() && Inv(w) && Enabled(w, ev) && EndedWith(w, before, r)
    ensures EndedWith(Next(l, w, ev), before, r)
  {
    hide Inv, Next, EndsAt;
    StepKeepsInv(l, w, ev);
    PlacedOf(w);
    EndStepIs(l, w, ev);
    var v := Next(l, w, ev);
    if v.o.closed {
      forall c ensures EndsAt(v, before, r, c) { ShorterEnds(w, v, before, r, c); }
    } else {
      OpenEnds(v, before, r);
    }
  }

  lemma PlacedOf(w: World)
    requires Inv(w)
    ensures Placed(w)
  {
  }

  lemma {:induction false} RunsEnd(w0: World, steps: seq<Step>, w: World, before: seq<Record>, r: Record)
    requires Inv(w0) && EndedWith(w0, before, r) && Runs(w0, steps, w)
    ensures EndedWith(w, before, r)
    decreases |steps|
  {
    hide Inv, Next, EndedWith;
    if steps != [] {
      StepKeepsInv(steps[0].l, w0, steps[0].ev);
      StepEnds(steps[0].l, w0, steps[0].ev, before, r);
      RunsEnd(Next(steps[0].l, w0, steps[0].ev), steps[1..], w, before, r);
    }
  }

  /** From the moment the terminal record is admitted, whatever happens, and also when the connection is closed or its
      socket fails: nothing more is admitted, and the terminal record goes out last, after everything admitted
      before it. Until then only records admitted before it have gone out. */
  lemma NothingFollowsTerminal(earlier: seq<Step>, w0: World, r: Record, steps: seq<Step>, w: World, l: Limits,
                               s: Record, c: Channel)
    requires Runs(InitWorld, earlier, w0) && SendTerminal(w0.o, r).1.Admitted? && l.Valid()
    requires Runs(Next(l, w0, Ends(r)), steps, w)
    ensures w.admitted == w0.admitted + [r] && EndsAt(w, w0.admitted, r, c)
    ensures Send(l, w.o, s).1.Refused? && SendTerminal(w.o, s).1.Refused?
  {
    hide Inv, Runs, EndsAt;
    ReachedInv(earlier, w0);
    StepKeepsInv(l, w0, Ends(r));
    var w1 := Next(l, w0, Ends(r));
    OpenEnds(w1, w0.admitted, r);
    RunsEnd(w1, steps, w, w0.admitted, r);
  }

  lemma {:induction false} ChannelHas(records: seq<Record>, r: Record)
    ensures r in OfChannel(records, r.channel) <==> r in records
  {
    if records != [] {
      var n := |records| - 1;
      ChannelHas(records[..n], r);
      assert records == records[..n] + [records[n]];
    }
  }

  /** So a terminal record unlike those before it is found in the output in one place only, the last. */
  lemma TerminalHasOnePlace(earlier: seq<Step>, w0: World, r: Record, steps: seq<Step>, w: World, l: Limits, k: nat)
    requires Runs(InitWorld, earlier, w0) && SendTerminal(w0.o, r).1.Admitted? && l.Valid() && r !in w0.admitted
    requires Runs(Next(l, w0, Ends(r)), steps, w) && k < |Out(w)| && Out(w)[k] == r
    ensures k == |w.admitted| - 1 == |Out(w)| - 1
  {
    hide Inv, Runs, Out, OfChannel;
    NothingFollowsTerminal(earlier, w0, r, steps, w, l, r, r.channel);
    var out, n := Out(w), |w0.admitted|;
    var front := if |out| <= n then out else out[..n];
    ChannelHas(w0.admitted, r);
    ChannelHas(front, r);
    assert forall j :: 0 <= j < |front| ==> front[j] == out[j];
  }

  // ----- Fairness -----

  /** A dequeue serves the channel in front and moves every other one place ahead, and an admission moves none. */
  lemma DequeueAdvances(o: Outbound, k: nat)
    requires CanDequeue(o) && 0 < k < |o.ready|
    ensures k - 1 < |Dequeue(o).ready| && Dequeue(o).ready[k - 1] == o.ready[k]
    ensures Dequeue(o).sending == o.sending + [o.queues[o.ready[0]][0]]
  {
  }

  lemma EnqueueKeepsPlaces(o: Outbound, r: Record, k: nat)
    requires k < |o.ready|
    ensures k < |Enqueue(o, r).0.ready| && Enqueue(o, r).0.ready[k] == o.ready[k]
  {
  }

  /** The record that goes out at place `at`, counted from the start of the connection, is one of channel `c`: it has
      gone out, or the channel will be in front by then. */
  predicate Due(wire: seq<Record>, o: Outbound, at: nat, c: Channel) {
    var out := wire + o.sending;
    if at < |out| then out[at].channel == c else at - |out| < |o.ready| && o.ready[at - |out|] == c
  }

  lemma DequeueDue(wire: seq<Record>, o: Outbound, at: nat, c: Channel)
    requires CanDequeue(o) && OwnQueue(o, o.ready[0]) && Due(wire, o, at, c)
    ensures Due(wire, Dequeue(o), at, c)
  {
    var out, first := wire + o.sending, o.queues[o.ready[0]][0];
    DequeueTakes(o);
    assert wire + Dequeue(o).sending == out + [first] && first.channel == o.ready[0];
    hide OwnQueue;
    if at > |out| { DequeueAdvances(o, at - |out|); }
  }

  lemma FinishDue(l: Limits, wire: seq<Record>, o: Outbound, at: nat, c: Channel)
    requires Due(wire, o, at, c)
    ensures Due(wire, Finish(l, o), at, c)
  {
    hide Size;
  }

  lemma {:induction false} GatherDue(l: Limits, wire: seq<Record>, o: Outbound, at: nat, c: Channel)
    requires Kept(o) && Due(wire, o, at, c)
    ensures Due(wire, Gather(l, o), at, c)
    decreases l.batchRecords - |o.sending|
  {
    hide Kept, Finish, Due;
    KeptFront(o);
    if TakesMore(l, o) {
      DequeueKept(o);
      DequeueDue(wire, o, at, c);
      hide Dequeue;
      GatherDue(l, wire, Dequeue(o), at, c);
    } else {
      FinishDue(l, wire, o, at, c);
    }
  }

  lemma StepDue(l: Limits, w: World, ev: Event, at: nat, c: Channel)
    requires Inv(w) && Enabled(w, ev) && !w.o.closed && Due(w.wire, w.o, at, c)
    ensures var v := Next(l, w, ev); v.o.closed || Due(v.wire, v.o, at, c)
  {
    hide AllConserved, Counted, Ended, Awake, Gather, Kept;
    var v := Next(l, w, ev);
    if ev.Gathers? {
      GatherDue(l, w.wire, w.o, at, c);
    } else if ev.SendDone? {
      assert v.wire + v.o.sending == w.wire + w.o.sending;
    } else if ev.Sends? && at >= |w.wire + w.o.sending| {
      EnqueueKeepsPlaces(w.o, ev.r, at - |w.wire + w.o.sending|);
    }
  }

  lemma ClosedStays(l: Limits, w: World, ev: Event)
    requires w.o.closed && Enabled(w, ev)
    ensures Next(l, w, ev).o.closed
  {
  }

  lemma {:induction false} ClosedForGood(w0: World, steps: seq<Step>, w: World)
    requires w0.o.closed && Runs(w0, steps, w)
    ensures w.o.closed
    decreases |steps|
  {
    hide Next;
    if steps != [] {
      ClosedStays(steps[0].l, w0, steps[0].ev);
      ClosedForGood(Next(steps[0].l, w0, steps[0].ev), steps[1..], w);
    }
  }

  lemma {:induction false} RunsStayDue(w0: World, steps: seq<Step>, w: World, at: nat, c: Channel)
    requires Inv(w0) && !w0.o.closed && Due(w0.wire, w0.o, at, c) && Runs(w0, steps, w) && !w.o.closed
    ensures Due(w.wire, w.o, at, c)
    decreases |steps|
  {
    hide Inv, Next, Due;
    if steps != [] {
      var v := Next(steps[0].l, w0, steps[0].ev);
      StepKeepsInv(steps[0].l, w0, steps[0].ev);
      StepDue(steps[0].l, w0, steps[0].ev, at, c);
      if v.o.closed { ClosedForGood(v, steps[1..], w); }
      RunsStayDue(v, steps[1..], w, at, c);
    }
  }

  /** Round robin: a channel with `k` others ahead of it gets the record that goes out after the next `k`, whatever is
      admitted to any channel and however the writer's batches fall in the meantime. */
  lemma ServedInTurn(before: seq<Step>, w0: World, steps: seq<Step>, w: World, k: nat)
    requires Runs(InitWorld, before, w0) && Runs(w0, steps, w) && !w0.o.closed && !w.o.closed && k < |w0.o.ready|
    ensures var sofar, out := |w0.wire + w0.o.sending|, w.wire + w.o.sending;
            |out| > sofar + k ==> out[sofar + k].channel == w0.o.ready[k]
  {
    hide Inv, Runs;
    ReachedInv(before, w0);
    RunsStayDue(w0, steps, w, |w0.wire + w0.o.sending| + k, w0.o.ready[k]);
  }
}
