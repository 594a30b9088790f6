/** The outbound half of a remoting connection: one queue per channel, served in turn by one writer. */
module Transport {
  import opened Basics

  datatype Channel = Control | Lane(id: nat)

  /** A user message carries its number within the lane and its recipient. */
  datatype Payload = Frame(id: nat) | User(number: nat, recipient: nat, message: nat) | GoAway

  datatype Record = Record(channel: Channel, size: nat, payload: Payload)

  datatype Limits = Limits(messages: nat, bytes: nat, record: nat, batchRecords: nat, batchBytes: nat) {
    predicate Valid() { batchRecords > 0 && batchBytes > 0 }
  }

  type Queues = map<Channel, seq<Record>>

  /** `ready` lists the channels that have records, in the order they will be served. The terminal record has a
      place of its own, and `sending` is the batch the writer has taken out. */
  datatype Outbound =
    Outbound(closed: bool, queues: Queues, ready: seq<Channel>, messages: int, bytes: int, terminal: Option<Record>,
             terminalPending: bool, wake: bool, sending: seq<Record>)

  const FreshOutbound := Outbound(false, map[], [], 0, 0, None, false, false, [])

  function Size(records: seq<Record>): nat {
    if records == [] then 0 else Size(records[..|records| - 1]) + records[|records| - 1].size
  }

  // ----- Admission -----

  datatype Admission = Admitted(mustWake: bool) | Refused

  function Enqueue(o: Outbound, r: Record): (Outbound, bool) {
    var known := r.channel in o.queues;
    var mustWake := !known && o.ready == [] && !o.terminalPending && !o.wake;
    (o.(queues := o.queues[r.channel := (if known then o.queues[r.channel] else []) + [r]],
        ready := if known then o.ready else o.ready + [r.channel],
        messages := o.messages + 1, bytes := o.bytes + r.size, wake := o.wake || mustWake),
     mustWake)
  }

  function Send(l: Limits, o: Outbound, r: Record): (Outbound, Admission) {
    if o.closed || o.terminal.Some? || r.size > l.record || o.messages >= l.messages || o.bytes + r.size > l.bytes
    then (o, Refused)
    else var (p, mustWake) := Enqueue(o, r); (p, Admitted(mustWake))
  }

  /** The terminal record is admitted even when the queues are full, once. */
  function SendTerminal(o: Outbound, r: Record): (Outbound, Admission) {
    if o.closed || o.terminal.Some? then (o, Refused)
    else
      var mustWake := o.ready == [] && !o.wake;
      (o.(terminal := Some(r), terminalPending := true, messages := o.messages + 1, bytes := o.bytes + r.size,
          wake := o.wake || mustWake),
       Admitted(mustWake))
  }

  // ----- The writer -----

  predicate CanDequeue(o: Outbound) {
    o.ready != [] && o.ready[0] in o.queues && o.queues[o.ready[0]] != []
  }

  /** Take the next record of the channel in front; the channel goes to the back if it has more. */
  function Dequeue(o: Outbound): Outbound
    requires CanDequeue(o)
  {
    var channel := o.ready[0];
    var queue := o.queues[channel];
    if |queue| > 1 then
      o.(ready := o.ready[1..] + [channel], queues := o.queues[channel := queue[1..]],
         sending := o.sending + [queue[0]])
    else
      o.(ready := o.ready[1..], queues := o.queues - {channel}, sending := o.sending + [queue[0]])
  }

  predicate TakesMore(l: Limits, o: Outbound) {
    && CanDequeue(o) && |o.sending| < l.batchRecords
    && (o.sending == [] || Size(o.sending) + o.queues[o.ready[0]][0].size <= l.batchBytes)
  }

  predicate TakesTerminal(l: Limits, o: Outbound) {
    && o.ready == [] && o.terminalPending && o.terminal.Some? && |o.sending| < l.batchRecords
    && (o.sending == [] || Size(o.sending) + o.terminal.value.size <= l.batchBytes)
  }

  /** The terminal record goes out only when nothing else is left. */
  function Finish(l: Limits, o: Outbound): Outbound {
    var p := if TakesTerminal(l, o) then o.(sending := o.sending + [o.terminal.value], terminalPending := false) else o;
    if p.sending == [] then p.(wake := false) else p
  }

  function Gather(l: Limits, o: Outbound): Outbound
    decreases l.batchRecords - |o.sending|
  {
    if TakesMore(l, o) then Gather(l, Dequeue(o)) else Finish(l, o)
  }

  function Sent(o: Outbound): Outbound {
    o.(messages := o.messages - |o.sending|, bytes := o.bytes - Size(o.sending), sending := [])
  }

  function Close(o: Outbound): Outbound {
    Outbound(true, map[], [], 0, 0, None, false, false, [])
  }

  /** The ready channels are exactly the known ones, each once, and each has records of its own. */
  ghost predicate Served(o: Outbound) {
    && (forall c :: c in o.queues <==> c in o.ready)
    && (forall c :: c in o.queues ==> o.queues[c] != [])
    && (forall i, j :: 0 <= i < j < |o.ready| ==> o.ready[i] != o.ready[j])
  }

  lemma ServedFront(o: Outbound)
    requires Served(o) && o.ready != []
    ensures CanDequeue(o)
  {
    assert o.ready[0] in o.ready;
  }

  /** Dequeuing, channel by channel. */
  lemma DequeueIs(o: Outbound)
    requires CanDequeue(o)
    ensures var p, front, queue := Dequeue(o), o.ready[0], o.queues[o.ready[0]];
            && p == o.(ready := p.ready, queues := p.queues, sending := o.sending + [queue[0]])
            && (front in p.queues <==> |queue| > 1) && (front in p.queues ==> p.queues[front] == queue[1..])
            && (forall c :: c != front ==>
                  (c in p.queues <==> c in o.queues) && (c in p.queues ==> p.queues[c] == o.queues[c]))
            && p.ready == o.ready[1..] + if |queue| > 1 then [front] else []
  {
  }

  lemma DequeueServes(o: Outbound)
    requires Served(o) && CanDequeue(o)
    ensures Served(Dequeue(o))
  {
    DequeueIs(o);
    hide Dequeue;
    var p, front, rest := Dequeue(o), o.ready[0], o.ready[1..];
    assert o.ready == [front] + rest && front !in rest;
    forall c ensures (c in p.queues <==> c in p.ready) && (c in p.queues ==> p.queues[c] != []) {
      assert c in o.ready <==> c == front || c in rest;
    }
  }

  lemma DequeueTakes(o: Outbound)
    requires CanDequeue(o)
    ensures Dequeue(o).sending == o.sending + [o.queues[o.ready[0]][0]]
  {
  }

  lemma SizeAppend(records: seq<Record>, r: Record)
    ensures Size(records + [r]) == Size(records) + r.size
  {
    assert (records + [r])[..|records|] == records;
  }

  // ----- The connection object -----

  class AsyncioTcpConnection {
    const limits: Limits
    var closed: bool
    var queues: Queues
    var ready: seq<Channel>
    var messages: int
    var bytes: int
    var terminal: Option<Record>
    var terminalPending: bool
    var wake: bool
    var sending: seq<Record>

    ghost function View(): Outbound
      reads this
    {
      Outbound(closed, queues, ready, messages, bytes, terminal, terminalPending, wake, sending)
    }

    constructor (limits: Limits)
      ensures this.limits == limits && View() == FreshOutbound
    {
      this.limits := limits;
      closed, queues, ready, messages, bytes := false, map[], [], 0, 0;
      terminal, terminalPending, wake, sending := None, false, false, [];
    }

    method EnqueueOutbound(r: Record) returns (mustWake: bool)
      modifies this
      ensures (View(), mustWake) == Enqueue(old(View()), r)
    {
      mustWake := false;
      var queue: seq<Record> := [];
      if r.channel !in queues {
        if ready == [] && !terminalPending && !wake {
          mustWake := true;
          wake := true;
        }
        ready := ready + [r.channel];
      } else {
        queue := queues[r.channel];
      }
      queues := queues[r.channel := queue + [r]];
      messages := messages + 1;
      bytes := bytes + r.size;
    }

    method SendActive(r: Record) returns (a: Admission)
      modifies this
      ensures (View(), a) == Send(limits, old(View()), r)
    {
      if closed || terminal.Some? || r.size > limits.record { return Refused; }
      if messages >= limits.messages || bytes + r.size > limits.bytes { return Refused; }
      var mustWake := EnqueueOutbound(r);
      a := Admitted(mustWake);
    }

    method SendGoAway(r: Record) returns (a: Admission)
      modifies this
      ensures (View(), a) == SendTerminal(old(View()), r)
    {
      if closed || terminal.Some? { return Refused; }
      var mustWake := ready == [] && !wake;
      if mustWake { wake := true; }
      terminal := Some(r);
      terminalPending := true;
      messages := messages + 1;
      bytes := bytes + r.size;
      a := Admitted(mustWake);
    }

    method DequeueOne()
      requires CanDequeue(View())
      modifies this`ready, this`queues, this`sending
      ensures View() == Dequeue(old(View()))
    {
      var channel := ready[0];
      ready := ready[1..];
      var queue := queues[channel];
      var record := queue[0];
      queue := queue[1..];
      if queue != [] {
        ready := ready + [channel];
        queues := queues[channel := queue];
      } else {
        queues := queues - {channel};
      }
      sending := sending + [record];
    }

    method FinishBatch(batchBytes: nat)
      requires batchBytes == Size(sending)
      modifies this`sending, this`terminalPending, this`wake
      ensures View() == Finish(limits, old(View()))
    {
      if ready == [] && terminalPending && terminal.Some? && |sending| < limits.batchRecords
         && (sending == [] || batchBytes + terminal.value.size <= limits.batchBytes)
      {
        sending := sending + [terminal.value];
        terminalPending := false;
      }
      if sending == [] { wake := false; }
    }

    /** The batching loop of the writer. */
    method GatherBatch()
      requires sending == [] && Served(View())
      modifies this
      ensures View() == Gather(limits, old(View()))
    {
      hide Finish, Dequeue, Served;
      var batchBytes := 0;
      while ready != [] && |sending| < limits.batchRecords
        invariant Gather(limits, View()) == Gather(limits, old(View()))
        invariant batchBytes == Size(sending) && Served(View())
        invariant |sending| <= limits.batchRecords || sending == []
        decreases limits.batchRecords - |sending|
      {
        ServedFront(View());
        var record := queues[ready[0]][0];
        if sending != [] && batchBytes + record.size > limits.batchBytes { break; }
        DequeueServes(View());
        DequeueTakes(View());
        SizeAppend(sending, record);
        DequeueOne();
        batchBytes := batchBytes + record.size;
      }
      FinishBatch(batchBytes);
    }

    method AfterSend()
      modifies this`messages, this`bytes, this`sending
      ensures View() == Sent(old(View()))
    {
      messages := messages - |sending|;
      bytes := bytes - Size(sending);
      sending := [];
    }

    method MarkClosed()
      modifies this
      ensures View() == Close(old(View()))
    {
      closed := true;
      queues, ready, messages, bytes := map[], [], 0, 0;
      terminal, terminalPending, wake, sending := None, false, false, [];
    }
  }
}
