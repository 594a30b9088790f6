/** Delivery lanes: numbered user messages over a remoting connection, from the sender to the receiving association. */
module Lanes {
  import opened Transport
  import opened TransportRuns

  const MAX_U64: nat := 0xFFFF_FFFF_FFFF_FFFF

  /** Every recipient is served by one lane. */
  function LaneOf(recipient: nat, lanes: nat): nat
    requires lanes > 0
  {
    recipient % lanes
  }

  /** The record of a user message; `size` is what the frame codec makes of it. */
  function UserRecord(sequences: seq<nat>, recipient: nat, message: nat, size: nat): Record
    requires sequences != []
  {
    var lane := LaneOf(recipient, |sequences|);
    Record(Lane(lane), size, User(sequences[lane], recipient, message))
  }

  /** The sequence of a lane moves on only when its record was admitted. */
  function Advance(sequences: seq<nat>, recipient: nat, admitted: bool): seq<nat>
    requires sequences != []
  {
    var lane := LaneOf(recipient, |sequences|);
    if admitted then sequences[lane := sequences[lane] + 1] else sequences
  }

  datatype Verdict = Prepared | Violation

  /** The receiver's check of lane and sequence. */
  function Check(expected: seq<nat>, r: Record): (seq<nat>, Verdict) {
    if r.channel.Lane? && r.payload.User? && r.channel.id < |expected| && r.payload.number == expected[r.channel.id]
    then (expected[r.channel.id := expected[r.channel.id] + 1], Prepared)
    else (expected, Violation)
  }

  class Association {
    var outboundSequences: seq<nat>
    var inboundSequences: seq<nat>
    var closing: bool

    constructor (lanes: nat)
      requires lanes > 0
      ensures outboundSequences == seq(lanes, _ => 0) && inboundSequences == seq(lanes, _ => 0) && !closing
    {
      outboundSequences, inboundSequences := seq(lanes, _ => 0), seq(lanes, _ => 0);
      closing := false;
    }

    /** Send a user message through the connection; an exhausted lane closes the association. */
    method SendUserMessage(connection: AsyncioTcpConnection, recipient: nat, message: nat, size: nat)
      returns (a: Admission)
      requires outboundSequences != []
      modifies this`outboundSequences, this`closing, connection
      ensures var lane := LaneOf(recipient, |old(outboundSequences)|);
              if old(outboundSequences)[lane] > MAX_U64 then
                && a.Refused? && closing && outboundSequences == old(outboundSequences)
                && connection.View() == old(connection.View())
              else
                && (connection.View(), a)
                   == Send(connection.limits, old(connection.View()),
                           UserRecord(old(outboundSequences), recipient, message, size))
                && outboundSequences == Advance(old(outboundSequences), recipient, a.Admitted?)
                && closing == old(closing)
    {
      var lane := LaneOf(recipient, |outboundSequences|);
      var sequence := outboundSequences[lane];
      if sequence > MAX_U64 {
        closing := true;
        return Refused;
      }
      a := connection.SendActive(Record(Lane(lane), size, User(sequence, recipient, message)));
      if a.Admitted? { outboundSequences := outboundSequences[lane := sequence + 1]; }
    }

    method PrepareUserMessage(r: Record) returns (v: Verdict)
      modifies this`inboundSequences
      ensures (inboundSequences, v) == Check(old(inboundSequences), r)
    {
      if !r.channel.Lane? || !r.payload.User? || r.channel.id >= |inboundSequences| { return Violation; }
      var expected := inboundSequences[r.channel.id];
      if r.payload.number != expected { return Violation; }
      inboundSequences := inboundSequences[r.channel.id := expected + 1];
      v := Prepared;
    }
  }

  // ----- Runs -----

  /** `t` is the sender's connection. Of the records on its wire the receiver has taken the first `taken`; those that
      came before its handshake was over wait in `deferred`. */
  datatype Link =
    Link(t: TransportRuns.World, sequences: seq<nat>, taken: nat, active: bool, deferred: seq<Record>,
          expected: seq<nat>, prepared: seq<Record>, violated: bool)

  datatype Event =
    | SendsUser(recipient: nat, message: nat, size: nat)
    | Transports(ev: TransportRuns.Event)
    | Defers
    | Activates
    | Delivers

  function Init(lanes: nat): Link {
    Link(TransportRuns.InitWorld, seq(lanes, _ => 0), 0, false, [], seq(lanes, _ => 0), [], false)
  }

  predicate OnLane(r: Record) {
    r.channel.Lane?
  }

  /** User messages travel only on lanes, and only through the association. */
  predicate Enabled(w: Link, ev: Event) {
    match ev
    case SendsUser(recipient, _, _) =>
      w.sequences != [] && w.sequences[LaneOf(recipient, |w.sequences|)] <= MAX_U64
    case Transports(e) =>
      TransportRuns.Enabled(w.t, e) && (e.Sends? || e.Ends? ==> !OnLane(e.r) && !e.r.payload.User?)
    case Defers => !w.active && w.taken < |w.t.wire|
    case Activates => !w.active
    case Delivers => w.active && (w.deferred != [] || w.taken < |w.t.wire|)
  }

  /** A record reaches the receiver's lane check; control records go elsewhere. */
  function Handle(w: Link, r: Record): Link {
    if !OnLane(r) then w
    else
      var (expected, v) := Check(w.expected, r);
      if v.Prepared? then w.(expected := expected, prepared := w.prepared + [r]) else w.(violated := true)
  }

  function Next(l: Limits, w: Link, ev: Event): Link
    requires Enabled(w, ev)
  {
    match ev
    case SendsUser(recipient, message, size) =>
      var e := Sends(UserRecord(w.sequences, recipient, message, size));
      w.(t := TransportRuns.Next(l, w.t, e),
         sequences := Advance(w.sequences, recipient, Send(l, w.t.o, e.r).1.Admitted?))
    case Transports(e) => w.(t := TransportRuns.Next(l, w.t, e))
    case Defers =>
      var r := w.t.wire[w.taken];
      w.(taken := w.taken + 1, deferred := if OnLane(r) then w.deferred + [r] else w.deferred)
    case Activates => w.(active := true)
    case Delivers =>
      if w.deferred != [] then Handle(w.(deferred := w.deferred[1..]), w.deferred[0])
      else Handle(w.(taken := w.taken + 1), w.t.wire[w.taken])
  }

  /** An event under the limits in force at the time. */
  datatype Turn = Turn(l: Limits, ev: Event)

  ghost predicate Runs(w0: Link, turns: seq<Turn>, w: Link)
    decreases |turns|
  {
    if turns == [] then w == w0
    else
      && turns[0].l.Valid() && Enabled(w0, turns[0].ev)
      && Runs(Next(turns[0].l, w0, turns[0].ev), turns[1..], w)
  }

  // ----- The invariant -----

  /** The admitted records of a lane are numbered from zero, each in the lane of its recipient. */
  predicate NumberedAt(records: seq<Record>, lanes: nat, k: nat) {
    k < |records| ==>
      && records[k].payload.User? && records[k].payload.number == k
      && lanes > 0 && records[k].channel == Lane(LaneOf(records[k].payload.recipient, lanes))
  }

  ghost predicate LaneInv(w: Link, c: nat) {
    var admitted := OfChannel(w.t.admitted, Lane(c));
    && (forall k :: NumberedAt(admitted, |w.sequences|, k))
    && (if c < |w.sequences| then w.sequences[c] == |admitted| else admitted == [])
    && w.taken <= |w.t.wire|
    && OfChannel(w.t.wire[..w.taken], Lane(c)) == OfChannel(w.prepared, Lane(c)) + OfChannel(w.deferred, Lane(c))
    && (c < |w.expected| ==> w.expected[c] == |OfChannel(w.prepared, Lane(c))|)
  }

  predicate Routed(r: Record, lanes: nat) {
    r.payload.User? ==> lanes > 0 && r.channel == Lane(LaneOf(r.payload.recipient, lanes))
  }

  ghost predicate Inv(w: Link) {
    && (forall k :: 0 <= k < |w.t.admitted| ==> Routed(w.t.admitted[k], |w.sequences|))
    && (forall k :: 0 <= k < |w.prepared| ==> Routed(w.prepared[k], |w.sequences|))
    && TransportRuns.Inv(w.t) && |w.expected| == |w.sequences| && w.taken <= |w.t.wire| && !w.violated
    && (forall c: nat :: LaneInv(w, c))
    && (forall k :: 0 <= k < |w.deferred| ==> OnLane(w.deferred[k]))
    && (forall k :: 0 <= k < |w.prepared| ==> OnLane(w.prepared[k]))
  }

  /** What the receiver has taken of a lane is a prefix of what the sender was admitted for it. */
  lemma TakenIsPrefix(w: Link, c: Channel)
    requires TransportRuns.Inv(w.t) && w.taken <= |w.t.wire|
    ensures OfChannel(w.t.wire[..w.taken], c) <= OfChannel(w.t.wire, c) <= OfChannel(w.t.admitted, c)
  {
    var wire := w.t.wire;
    assert wire == wire[..w.taken] + wire[w.taken..];
    OfChannelConcat(wire[..w.taken], wire[w.taken..], c);
    assert Conserved(w.t, c) && wire <= wire + Batch(w.t.pc);
    ClosedHolds(w.t, c, wire);
  }

  lemma OfAppend(records: seq<Record>, r: Record, c: Channel)
    ensures OfChannel(records + [r], c) == OfChannel(records, c) + if r.channel == c then [r] else []
  {
    OfChannelConcat(records, [r], c);
    OfChannelOne(r, c);
  }

  /** What a transport step does to the histories. */
  lemma TransportEffect(l: Limits, t: TransportRuns.World, e: TransportRuns.Event)
    requires TransportRuns.Enabled(t, e)
    ensures var u := TransportRuns.Next(l, t, e);
            && t.wire <= u.wire
            && (if (e.Sends? && Send(l, t.o, e.r).1.Admitted?) || (e.Ends? && SendTerminal(t.o, e.r).1.Admitted?)
                then u.admitted == t.admitted + [e.r] else u.admitted == t.admitted)
  {
  }

  lemma TransportKeeps(l: Limits, w: Link, e: TransportRuns.Event)
    requires l.Valid() && Inv(w) && Enabled(w, Transports(e))
    ensures Inv(Next(l, w, Transports(e)))
  {
    hide OfChannel, TransportRuns.Inv;
    var v := Next(l, w, Transports(e));
    TransportRuns.StepKeepsInv(l, w.t, e);
    TransportEffect(l, w.t, e);
    hide TransportRuns.Next;
    assert v.t.wire[..w.taken] == w.t.wire[..w.taken];
    forall c: nat ensures LaneInv(v, c) {
      assert LaneInv(w, c);
      if v.t.admitted != w.t.admitted {
        OfAppend(w.t.admitted, e.r, Lane(c));
        assert OfChannel(w.t.admitted, Lane(c)) + [] == OfChannel(w.t.admitted, Lane(c));
      }
    }
  }

  lemma AdmitLane(w: Link, v: Link, recipient: nat, message: nat, size: nat, c: nat)
    requires LaneInv(w, c) && w.sequences != []
    requires v.t.admitted == w.t.admitted + [UserRecord(w.sequences, recipient, message, size)]
    requires v.sequences == Advance(w.sequences, recipient, true)
    ensures var admitted := OfChannel(v.t.admitted, Lane(c));
            && (forall k :: NumberedAt(admitted, |v.sequences|, k))
            && (if c < |v.sequences| then v.sequences[c] == |admitted| else admitted == [])
  {
    var r := UserRecord(w.sequences, recipient, message, size);
    OfAppend(w.t.admitted, r, Lane(c));
    hide OfChannel;
    var admitted := OfChannel(v.t.admitted, Lane(c));
    forall k ensures NumberedAt(admitted, |v.sequences|, k) {
      assert NumberedAt(OfChannel(w.t.admitted, Lane(c)), |w.sequences|, k);
    }
  }

  lemma SendKeeps(l: Limits, w: Link, recipient: nat, message: nat, size: nat)
    requires l.Valid() && Inv(w) && Enabled(w, SendsUser(recipient, message, size))
    ensures Inv(Next(l, w, SendsUser(recipient, message, size)))
  {
    hide OfChannel, TransportRuns.Inv;
    var v := Next(l, w, SendsUser(recipient, message, size));
    var e := Sends(UserRecord(w.sequences, recipient, message, size));
    TransportRuns.StepKeepsInv(l, w.t, e);
    TransportEffect(l, w.t, e);
    hide TransportRuns.Next;
    assert v.t.wire[..w.taken] == w.t.wire[..w.taken];
    forall c: nat ensures LaneInv(v, c) {
      assert LaneInv(w, c);
      if Send(l, w.t.o, e.r).1.Admitted? { AdmitLane(w, v, recipient, message, size, c); }
    }
  }

  // ----- The receiver -----

  /** The next record of a lane passes the check. */
  lemma NextPasses(w: Link, r: Record, rest: seq<Record>)
    requires Inv(w) && OnLane(r)
    requires OfChannel(w.t.admitted, r.channel) == OfChannel(w.prepared, r.channel) + [r] + rest
    ensures r.channel.id < |w.expected| && Routed(r, |w.sequences|)
    ensures Check(w.expected, r) == (w.expected[r.channel.id := w.expected[r.channel.id] + 1], Prepared)
  {
    assert LaneInv(w, r.channel.id);
    hide OfChannel, TransportRuns.Inv;
    var admitted, k := OfChannel(w.t.admitted, r.channel), |OfChannel(w.prepared, r.channel)|;
    assert admitted[k] == r && NumberedAt(admitted, |w.sequences|, k);
  }

  lemma PreparedLane(w: Link, v: Link, r: Record, c: nat)
    requires LaneInv(w, c) && OnLane(r) && r.channel.id < |w.expected|
    requires v.prepared == w.prepared + [r] && v.expected == w.expected[r.channel.id := w.expected[r.channel.id] + 1]
    ensures c < |v.expected| ==> v.expected[c] == |OfChannel(v.prepared, Lane(c))|
    ensures OfChannel(v.prepared, Lane(c)) == OfChannel(w.prepared, Lane(c)) + if r.channel == Lane(c) then [r] else []
  {
    OfAppend(w.prepared, r, Lane(c));
    hide OfChannel;
  }

  lemma FirstOf(r: Record, rest: seq<Record>, c: Channel)
    ensures OfChannel([r] + rest, c) == (if r.channel == c then [r] else []) + OfChannel(rest, c)
  {
    OfChannelConcat([r], rest, c);
    OfChannelOne(r, c);
  }

  /** The record the receiver handles next is the next one admitted for its lane. */
  lemma DeferredIsNext(w: Link)
    requires Inv(w) && w.deferred != []
    ensures var r := w.deferred[0];
            && OfChannel(w.prepared, r.channel) + [r] <= OfChannel(w.t.admitted, r.channel)
  {
    var r, rest := w.deferred[0], w.deferred[1..];
    assert LaneInv(w, r.channel.id);
    assert w.deferred == [r] + rest;
    FirstOf(r, rest, r.channel);
    TakenIsPrefix(w, r.channel);
    hide OfChannel, TransportRuns.Inv;
    var p := OfChannel(w.prepared, r.channel);
    assert p + ([r] + OfChannel(rest, r.channel)) == p + [r] + OfChannel(rest, r.channel);
  }

  lemma TakenGrows(w: Link, c: Channel)
    requires w.taken < |w.t.wire|
    ensures var r := w.t.wire[w.taken];
            OfChannel(w.t.wire[..w.taken + 1], c)
            == OfChannel(w.t.wire[..w.taken], c) + if r.channel == c then [r] else []
  {
    assert w.t.wire[..w.taken + 1] == w.t.wire[..w.taken] + [w.t.wire[w.taken]];
    OfAppend(w.t.wire[..w.taken], w.t.wire[w.taken], c);
  }

  lemma ArrivedIsNext(w: Link)
    requires Inv(w) && w.deferred == [] && w.taken < |w.t.wire| && OnLane(w.t.wire[w.taken])
    ensures var r := w.t.wire[w.taken];
            && OfChannel(w.prepared, r.channel) + [r] <= OfChannel(w.t.admitted, r.channel)
  {
    var r := w.t.wire[w.taken];
    assert LaneInv(w, r.channel.id);
    TakenGrows(w, r.channel);
    TakenIsPrefix(w.(taken := w.taken + 1), r.channel);
    EmptyChannel(r.channel);
    hide OfChannel, TransportRuns.Inv;
    assert OfChannel(w.prepared, r.channel) + [] == OfChannel(w.prepared, r.channel);
  }

  lemma DeferredKeeps(l: Limits, w: Link)
    requires Inv(w) && w.deferred != [] && w.active
    ensures Inv(Next(l, w, Delivers))
  {
    var r, rest := w.deferred[0], w.deferred[1..];
    var v := Next(l, w, Delivers);
    DeferredIsNext(w);
    var admitted, p := OfChannel(w.t.admitted, r.channel), OfChannel(w.prepared, r.channel);
    assert admitted == p + [r] + admitted[|p| + 1..];
    NextPasses(w, r, admitted[|p| + 1..]);
    assert w.deferred == [r] + rest;
    hide OfChannel, TransportRuns.Inv, Check;
    forall c: nat ensures LaneInv(v, c) {
      assert LaneInv(w, c);
      FirstOf(r, rest, Lane(c));
      PreparedLane(w, v, r, c);
      ShiftOne(OfChannel(w.prepared, Lane(c)), if r.channel == Lane(c) then [r] else [], OfChannel(rest, Lane(c)));
    }
  }

  lemma ShiftOne(a: seq<Record>, b: seq<Record>, c: seq<Record>)
    ensures a + (b + c) == a + b + c
  {
  }

  lemma ArrivedKeeps(l: Limits, w: Link)
    requires Inv(w) && w.deferred == [] && w.active && w.taken < |w.t.wire| && OnLane(w.t.wire[w.taken])
    ensures Inv(Next(l, w, Delivers))
  {
    var r := w.t.wire[w.taken];
    var v := Next(l, w, Delivers);
    ArrivedIsNext(w);
    var admitted, p := OfChannel(w.t.admitted, r.channel), OfChannel(w.prepared, r.channel);
    assert admitted == p + [r] + admitted[|p| + 1..];
    NextPasses(w, r, admitted[|p| + 1..]);
    hide OfChannel, TransportRuns.Inv, Check;
    forall c: nat ensures LaneInv(v, c) {
      assert LaneInv(w, c);
      TakenGrows(w, Lane(c));
      PreparedLane(w, v, r, c);
      EmptyChannel(Lane(c));
      assert OfChannel(w.prepared, Lane(c)) + [] == OfChannel(w.prepared, Lane(c));
      assert OfChannel(v.prepared, Lane(c)) + [] == OfChannel(v.prepared, Lane(c));
    }
  }

  /** A record that goes to the deferred queue, or is not on a lane. */
  lemma TakenKeeps(l: Limits, w: Link, ev: Event)
    requires Inv(w) && Enabled(w, ev) && w.taken < |w.t.wire|
    requires ev.Defers? || (ev.Delivers? && w.deferred == [] && !OnLane(w.t.wire[w.taken]))
    ensures Inv(Next(l, w, ev))
  {
    var r := w.t.wire[w.taken];
    var v := Next(l, w, ev);
    hide OfChannel, TransportRuns.Inv, Check;
    forall c: nat ensures LaneInv(v, c) {
      assert LaneInv(w, c);
      TakenGrows(w, Lane(c));
      OfAppend(w.deferred, r, Lane(c));
      var mine := if r.channel == Lane(c) then [r] else [];
      ShiftOne(OfChannel(w.prepared, Lane(c)), OfChannel(w.deferred, Lane(c)), mine);
      if !OnLane(r) {
        assert OfChannel(w.t.wire[..w.taken], Lane(c)) + [] == OfChannel(w.t.wire[..w.taken], Lane(c));
      }
    }
  }

  lemma ActivateKeeps(l: Limits, w: Link)
    requires Inv(w) && !w.active
    ensures Inv(Next(l, w, Activates))
  {
    hide OfChannel, TransportRuns.Inv;
    forall c: nat ensures LaneInv(Next(l, w, Activates), c) { assert LaneInv(w, c); }
  }

  lemma StepKeepsInv(l: Limits, w: Link, ev: Event)
    requires l.Valid() && Inv(w) && Enabled(w, ev)
    ensures Inv(Next(l, w, ev))
  {
    match ev {
      case SendsUser(recipient, message, size) => SendKeeps(l, w, recipient, message, size);
      case Transports(e) => TransportKeeps(l, w, e);
      case Defers => TakenKeeps(l, w, ev);
      case Activates => ActivateKeeps(l, w);
      case Delivers =>
        if w.deferred != [] {
          DeferredKeeps(l, w);
        } else if OnLane(w.t.wire[w.taken]) {
          ArrivedKeeps(l, w);
        } else {
          TakenKeeps(l, w, ev);
        }
        hide Inv;
    }
  }

  lemma {:induction false} RunsKeepInv(w0: Link, turns: seq<Turn>, w: Link)
    requires Inv(w0) && Runs(w0, turns, w)
    ensures Inv(w)
    decreases |turns|
  {
    hide Inv, Next;
    if turns != [] {
      StepKeepsInv(turns[0].l, w0, turns[0].ev);
      RunsKeepInv(Next(turns[0].l, w0, turns[0].ev), turns[1..], w);
    }
  }

  lemma InitInv(lanes: nat)
    ensures Inv(Init(lanes))
  {
    TransportRuns.InitInv();
    hide TransportRuns.Inv;
    var w := Init(lanes);
    forall c: nat ensures LaneInv(w, c) { EmptyChannel(Lane(c)); }
  }

  lemma ReachedInv(lanes: nat, turns: seq<Turn>, w: Link)
    requires Runs(Init(lanes), turns, w)
    ensures Inv(w)
  {
    hide Inv, Runs;
    InitInv(lanes);
    RunsKeepInv(Init(lanes), turns, w);
  }

  // ----- The theorems -----

  /** What the receiver prepares for a lane is a prefix of what the sender was admitted for it. */
  lemma LanesArePrefixes(lanes: nat, turns: seq<Turn>, w: Link, c: nat)
    requires Runs(Init(lanes), turns, w)
    ensures OfChannel(w.prepared, Lane(c)) <= OfChannel(w.t.admitted, Lane(c))
  {
    ReachedInv(lanes, turns, w);
    assert LaneInv(w, c);
    TakenIsPrefix(w, Lane(c));
    hide OfChannel;
  }

  /** A sender that follows the protocol never trips the sequence check. */
  lemma SequenceCheckHolds(lanes: nat, turns: seq<Turn>, w: Link)
    requires Runs(Init(lanes), turns, w)
    ensures !w.violated
  {
    ReachedInv(lanes, turns, w);
  }

  function ForRecipient(records: seq<Record>, recipient: nat): seq<Record> {
    if records == [] then []
    else
      var r := records[|records| - 1];
      ForRecipient(records[..|records| - 1], recipient)
      + if r.payload.User? && r.payload.recipient == recipient then [r] else []
  }

  lemma {:induction false} RecipientOfLane(records: seq<Record>, recipient: nat, c: Channel)
    requires forall k :: 0 <= k < |records| && records[k].payload.User? && records[k].payload.recipient == recipient
               ==> records[k].channel == c
    ensures ForRecipient(OfChannel(records, c), recipient) == ForRecipient(records, recipient)
  {
    if records != [] {
      var n := |records| - 1;
      RecipientOfLane(records[..n], recipient, c);
      var lane := OfChannel(records[..n], c);
      if records[n].channel == c {
        assert OfChannel(records, c) == lane + [records[n]];
        assert (lane + [records[n]])[..|lane|] == lane;
      } else {
        assert OfChannel(records, c) == lane;
      }
    }
  }

  lemma {:induction false} RecipientPrefix(a: seq<Record>, b: seq<Record>, recipient: nat)
    requires a <= b
    ensures ForRecipient(a, recipient) <= ForRecipient(b, recipient)
    decreases |b|
  {
    if a != b { RecipientPrefix(a, b[..|b| - 1], recipient); }
  }

  /** Each recipient is sent a prefix of the messages admitted for it, in order and without duplicates. */
  lemma RecipientsArePrefixes(lanes: nat, turns: seq<Turn>, w: Link, recipient: nat)
    requires Runs(Init(lanes), turns, w)
    ensures ForRecipient(w.prepared, recipient) <= ForRecipient(w.t.admitted, recipient)
  {
    ReachedInv(lanes, turns, w);
    var n := |w.sequences|;
    if n > 0 {
      var c := LaneOf(recipient, n);
      LanesArePrefixes(lanes, turns, w, c);
      RecipientOfLane(w.prepared, recipient, Lane(c));
      RecipientOfLane(w.t.admitted, recipient, Lane(c));
      RecipientPrefix(OfChannel(w.prepared, Lane(c)), OfChannel(w.t.admitted, Lane(c)), recipient);
    } else {
      NoUsers(w.prepared, recipient);
    }
  }

  lemma {:induction false} NoUsers(records: seq<Record>, recipient: nat)
    requires forall k :: 0 <= k < |records| ==> Routed(records[k], 0)
    ensures ForRecipient(records, recipient) == []
  {
    if records != [] { NoUsers(records[..|records| - 1], recipient); }
  }
}
