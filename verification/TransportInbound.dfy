/** The inbound half of a remoting connection: reservations made before a record is read. */
module TransportInbound {
  import opened Basics
  import opened Transport

  datatype State = Open | ReadFailed | Stopped

  /** `header` is the size of the common frame header. */
  datatype InLimits = InLimits(messages: nat, bytes: nat, record: nat, header: nat)

  /** `reading` is the size of the record a reservation was made for, `partial` the header bytes read so far. */
  datatype Inbound =
    Inbound(state: State, records: seq<Record>, messages: int, bytes: int, reading: Option<nat>, partial: nat)

  const FreshInbound := Inbound(Open, [], 0, 0, None, 0)

  function HeaderBytes(i: Inbound, count: nat): Inbound {
    i.(partial := i.partial + count, bytes := i.bytes + count)
  }

  datatype Reservation = Reserved | MustWait | TooLarge

  /** A terminal record may use one message and one record size beyond the limits. */
  function MessageLimit(l: InLimits, terminal: bool): nat {
    l.messages + if terminal then 1 else 0
  }

  function ByteLimit(l: InLimits, terminal: bool): nat {
    l.bytes + if terminal then l.record else 0
  }

  function Reserve(l: InLimits, i: Inbound, total: nat, terminal: bool): (Inbound, Reservation)
    requires total >= l.header
  {
    if total > l.record || total > ByteLimit(l, terminal) || MessageLimit(l, terminal) == 0 then (i, TooLarge)
    else if i.messages < MessageLimit(l, terminal) && i.bytes + (total - l.header) <= ByteLimit(l, terminal) then
      (i.(reading := Some(total), partial := 0, messages := i.messages + 1, bytes := i.bytes + (total - l.header)),
       Reserved)
    else (i, MustWait)
  }

  /** The record is complete; the limits may have been tightened meanwhile. */
  function Arrive(l: InLimits, i: Inbound, r: Record, terminal: bool): (Inbound, bool) {
    if r.size > l.record || i.messages > MessageLimit(l, terminal) || i.bytes > ByteLimit(l, terminal) then (i, false)
    else (i.(reading := None, records := i.records + [r]), true)
  }

  /** Give back a reservation that came to nothing. */
  function Abandon(i: Inbound, total: nat): Inbound {
    if i.reading.None? then i else i.(reading := None, messages := i.messages - 1, bytes := i.bytes - total)
  }

  function FailRead(i: Inbound): Inbound {
    if i.state.Stopped? then i else i.(state := ReadFailed, bytes := i.bytes - i.partial, partial := 0)
  }

  function Receive(i: Inbound, max: nat): (Inbound, seq<Record>) {
    var count := Min(max, |i.records|);
    (i.(records := i.records[count..], messages := i.messages - count, bytes := i.bytes - Size(i.records[..count])),
     i.records[..count])
  }

  function Shut(i: Inbound): Inbound {
    Inbound(Stopped, [], 0, 0, None, 0)
  }

  class InboundQueue {
    var state: State
    var records: seq<Record>
    var messages: int
    var bytes: int
    var reading: Option<nat>
    var partial: nat

    ghost function View(): Inbound
      reads this
    {
      Inbound(state, records, messages, bytes, reading, partial)
    }

    constructor ()
      ensures View() == FreshInbound
    {
      state, records, messages, bytes, reading, partial := Open, [], 0, 0, None, 0;
    }

    method ReserveInbound(l: InLimits, total: nat, terminal: bool) returns (r: Reservation)
      requires total >= l.header
      modifies this
      ensures (View(), r) == Reserve(l, old(View()), total, terminal)
    {
      var messageLimit := MessageLimit(l, terminal);
      var byteLimit := ByteLimit(l, terminal);
      if total > l.record { return TooLarge; }
      if total > byteLimit { return TooLarge; }
      if messageLimit == 0 { return TooLarge; }
      var body := total - l.header;
      if messages < messageLimit && bytes + body <= byteLimit {
        reading, partial := Some(total), 0;
        messages := messages + 1;
        bytes := bytes + body;
        return Reserved;
      }
      r := MustWait;
    }

    method ReceiveMany(max: nat) returns (taken: seq<Record>)
      modifies this
      ensures (View(), taken) == Receive(old(View()), max)
    {
      var count := Min(max, |records|);
      taken := [];
      for k := 0 to count
        invariant taken == old(records)[..k] && records == old(records)[k..]
        invariant View() == old(View()).(records := records)
      {
        taken := taken + [records[0]];
        records := records[1..];
      }
      messages := messages - count;
      bytes := bytes - Size(taken);
    }
  }

  // ----- Runs -----

  /** Where the reader is: collecting a header, checking for room for a record, waiting for it, woken up, or reading
      the body. */
  datatype Pc =
    | Header
    | Reserving(total: nat, terminal: bool)
    | Blocked(total: nat, terminal: bool)
    | Woken(total: nat, terminal: bool)
    | Body(total: nat, terminal: bool)
    | Done

  /** `l` are the limits in force. `pressed` tells the consumers that the reader waits, `ready` is its event and
      `wakers` the wake-ups under way. */
  datatype World = World(i: Inbound, pc: Pc, l: InLimits, pressed: bool, ready: bool, wakers: nat)

  datatype Event =
    | ReadsHeader(count: nat)
    | Announces(total: nat, terminal: bool)
    | Reserves
    | Wakes
    | Resumes
    | Unpresses
    | Arrives(r: Record)
    | Fails
    | Receives(max: nat)
    | Activates(l: InLimits)
    | Tightens(record: nat)
    | Shuts

  function InitWorld(l: InLimits): World {
    World(FreshInbound, Header, l, false, false, 0)
  }

  predicate Enabled(w: World, ev: Event) {
    match ev
    case ReadsHeader(count) => w.pc.Header? && !w.i.state.Stopped? && w.i.partial + count <= w.l.header
    case Announces(total, _) =>
      w.pc.Header? && !w.i.state.Stopped? && w.i.partial == w.l.header && total >= w.l.header
    case Reserves => w.pc.Reserving? && !w.i.state.Stopped? && w.pc.total >= w.l.header
    case Wakes => w.wakers > 0
    case Resumes => w.pc.Blocked? && w.ready
    case Unpresses => w.pc.Woken?
    case Arrives(r) => w.pc.Body? && !w.i.state.Stopped? && r.size == w.pc.total
    case Fails => !w.pc.Done? && !w.pc.Blocked?
    case Receives(_) => true
    case Activates(l) => l.header == w.l.header
    case Tightens(record) => record <= w.l.record
    case Shuts => true
  }

  /** Wake the reader if it says that it waits. */
  function Nudge(w: World): World {
    if w.pressed then w.(wakers := w.wakers + 1) else w
  }

  function Next(w: World, ev: Event): World
    requires Enabled(w, ev)
  {
    match ev
    case ReadsHeader(count) => w.(i := HeaderBytes(w.i, count))
    case Announces(total, terminal) => w.(pc := Reserving(total, terminal))
    case Reserves =>
      var (j, r) := Reserve(w.l, w.i, w.pc.total, w.pc.terminal);
      (match r
       case Reserved => w.(i := j, pc := Body(w.pc.total, w.pc.terminal))
       case MustWait => w.(pc := Blocked(w.pc.total, w.pc.terminal), pressed := true, ready := false)
       case TooLarge => w.(i := FailRead(j), pc := Done, pressed := false))
    case Wakes => w.(wakers := w.wakers - 1, ready := true)
    case Resumes => w.(pc := Woken(w.pc.total, w.pc.terminal))
    case Unpresses => w.(pc := Reserving(w.pc.total, w.pc.terminal), pressed := false)
    case Arrives(r) =>
      var (j, ok) := Arrive(w.l, w.i, r, w.pc.terminal);
      if ok then w.(i := j, pc := Header)
      else w.(i := FailRead(Abandon(j, w.pc.total)), pc := Done, pressed := false)
    case Fails =>
      var j := if w.pc.Body? then Abandon(w.i, w.pc.total) else w.i;
      w.(i := FailRead(j), pc := Done, pressed := false)
    case Receives(max) => if w.i.records == [] then w else Nudge(w).(i := Receive(w.i, max).0)
    case Activates(l) => Nudge(w).(l := l)
    case Tightens(record) => Nudge(w).(l := w.l.(record := record))
    case Shuts => w.(i := Shut(w.i), pressed := false)
  }

  ghost predicate Runs(w0: World, evs: seq<Event>, w: World)
    decreases |evs|
  {
    if evs == [] then w == w0 else Enabled(w0, evs[0]) && Runs(Next(w0, evs[0]), evs[1..], w)
  }

  /** Both counters equal the queued records and the one being read. */
  predicate Exact(w: World) {
    var i := w.i;
    if i.state.Stopped? then i.messages == 0 && i.bytes == 0 && i.records == [] && i.reading.None?
    else
      && i.messages == |i.records| + (if i.reading.Some? then 1 else 0)
      && i.bytes == Size(i.records) + (if i.reading.Some? then i.reading.value else i.partial)
      && (i.reading.Some? ==> i.partial == 0 && w.pc.Body? && w.pc.total == i.reading.value)
      && (w.pc.Body? ==> i.reading == Some(w.pc.total))
      && (w.pc.Reserving? || w.pc.Blocked? || w.pc.Woken? ==> i.partial == w.l.header)
      && (w.pc.Done? ==> i.partial == 0)
  }

  /** A waiting reader has said so, and has found no room since the last change or will be woken. */
  predicate Roused(w: World) {
    w.pc.Blocked? && !w.i.state.Stopped? ==>
      && w.pressed
      && (w.wakers > 0 || w.ready || Waits(w))
  }

  /** There is still no room for the record, and no reason to refuse it. */
  predicate Waits(w: World)
    requires w.pc.Blocked?
  {
    w.pc.total >= w.l.header && Reserve(w.l, w.i, w.pc.total, w.pc.terminal).1.MustWait?
  }

  /** A record is at least as long as its header. */
  predicate Announced(w: World) {
    (w.pc.Reserving? || w.pc.Blocked? || w.pc.Woken? || w.pc.Body?) ==> w.pc.total >= w.l.header
  }

  ghost predicate Inv(w: World) {
    Exact(w) && Roused(w) && Announced(w)
  }

  lemma {:induction false} SizeSplit(records: seq<Record>, k: nat)
    requires k <= |records|
    ensures Size(records) == Size(records[..k]) + Size(records[k..])
  {
    if k == |records| {
      assert records[..k] == records && records[k..] == [];
    } else {
      var n := |records| - 1;
      SizeSplit(records[..n], k);
      assert records[..n][..k] == records[..k] && records[k..][..n - k] == records[..n][k..];
    }
  }

  lemma ReceiveKeepsExact(w: World, max: nat)
    requires Exact(w)
    ensures Exact(Next(w, Receives(max)))
  {
    hide Size;
    SizeSplit(w.i.records, Min(max, |w.i.records|));
  }

  lemma ReadingKeepsExact(w: World, ev: Event)
    requires Exact(w) && Enabled(w, ev) && (ev.Reserves? || ev.Arrives? || ev.Fails?)
    ensures Exact(Next(w, ev))
  {
    hide Size, Receive;
    if ev.Arrives? { SizeAppend(w.i.records, ev.r); }
  }

  lemma WaitingKeepsExact(w: World, ev: Event)
    requires Exact(w) && Enabled(w, ev)
    requires !ev.Reserves? && !ev.Arrives? && !ev.Fails? && !ev.Receives?
    ensures Exact(Next(w, ev))
  {
    hide Size, Receive, Reserve, Arrive;
  }

  lemma StepKeepsExact(w: World, ev: Event)
    requires Exact(w) && Enabled(w, ev)
    ensures Exact(Next(w, ev))
  {
    hide Exact, Next;
    if ev.Receives? { ReceiveKeepsExact(w, ev.max); }
    else if ev.Reserves? || ev.Arrives? || ev.Fails? { ReadingKeepsExact(w, ev); }
    else { WaitingKeepsExact(w, ev); }
  }

  lemma StepKeepsRoused(w: World, ev: Event)
    requires Roused(w) && Announced(w) && Enabled(w, ev)
    ensures Roused(Next(w, ev)) && Announced(Next(w, ev))
  {
    hide Size;
  }

  lemma {:induction false} RunsKeepInv(w0: World, evs: seq<Event>, w: World)
    requires Inv(w0) && Runs(w0, evs, w)
    ensures Inv(w)
    decreases |evs|
  {
    hide Exact, Roused, Next;
    if evs != [] {
      StepKeepsExact(w0, evs[0]);
      StepKeepsRoused(w0, evs[0]);
      RunsKeepInv(Next(w0, evs[0]), evs[1..], w);
    }
  }

  lemma ReachedInv(l: InLimits, evs: seq<Event>, w: World)
    requires Runs(InitWorld(l), evs, w)
    ensures Inv(w)
  {
    RunsKeepInv(InitWorld(l), evs, w);
  }

  // ----- The theorems -----

  /** Over every run of the reader and its consumers, with the limits changed at any time, the inbound counters equal
      what is queued and being read. */
  lemma InboundIsExact(l: InLimits, evs: seq<Event>, w: World)
    requires Runs(InitWorld(l), evs, w)
    ensures Exact(w)
  {
    hide Exact, Runs;
    ReachedInv(l, evs, w);
  }

  /** A reservation keeps both counters within the limits it was made under. */
  lemma ReservationFits(l: InLimits, evs: seq<Event>, w: World)
    requires Runs(InitWorld(l), evs, w) && Enabled(w, Reserves) && Next(w, Reserves).pc.Body?
    ensures var i := Next(w, Reserves).i;
            && |i.records| + 1 == i.messages <= MessageLimit(w.l, w.pc.terminal)
            && Size(i.records) + w.pc.total == i.bytes <= ByteLimit(w.l, w.pc.terminal)
  {
    ReachedInv(l, evs, w);
  }

  /** A reader that waits although there is room for its record, because records were received or the limits were
      raised, or although the limits now refuse it, has a wake-up on its way. */
  lemma ReaderIsWoken(l: InLimits, evs: seq<Event>, w: World)
    requires Runs(InitWorld(l), evs, w) && w.pc.Blocked? && !w.i.state.Stopped?
    ensures w.pc.total >= w.l.header
    ensures !Reserve(w.l, w.i, w.pc.total, w.pc.terminal).1.MustWait? ==> w.wakers > 0 || w.ready
  {
    ReachedInv(l, evs, w);
    hide Exact, Reserve;
  }
}
