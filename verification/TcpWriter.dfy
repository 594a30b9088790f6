/** The writer of a TCP connection: bounded admission, splitting into batches, and completions. */
module TcpWriter {
  import opened Basics

  type Byte = bv8

  /** One admitted write. The data of a write is never empty. */
  datatype Write = Write(id: nat, data: seq<Byte>)

  /** `immediate` is a batch delay of zero. */
  datatype Limits = Limits(messages: nat, bytes: nat, batchMessages: nat, batchBytes: nat, immediate: bool) {
    predicate Valid() { messages > 0 && bytes > 0 && batchMessages > 0 && batchBytes > 0 }
  }

  /** `outbound` is the queue shared with the senders, with its two counters; the rest belongs to the writer: the
      writes it has popped, how much of the first of them it has split off, and the batch it is building. */
  datatype Conn =
    Conn(open: bool, outbound: seq<Write>, messages: int, bytes: int, wake: bool,
         submissions: seq<Write>, offset: nat, pending: seq<seq<Byte>>, completions: seq<Write>, pendingBytes: nat)

  const FreshConn := Conn(true, [], 0, 0, false, [], 0, [], [], 0)

  function DataOf(ws: seq<Write>): seq<Byte> {
    if ws == [] then [] else ws[0].data + DataOf(ws[1..])
  }

  // ----- Critical sections -----

  datatype Admission = Accepted(mustWake: bool) | CapacityFull | Closed

  function Admit(l: Limits, c: Conn, w: Write): (Conn, Admission) {
    if !c.open then (c, Closed)
    else if c.messages >= l.messages || c.bytes + |w.data| > l.bytes then (c, CapacityFull)
    else
      var mustWake := c.outbound == [] && !c.wake;
      (c.(outbound := c.outbound + [w], messages := c.messages + 1, bytes := c.bytes + |w.data|,
          wake := c.wake || mustWake),
       Accepted(mustWake))
  }

  /** Take over as many writes as a batch may complete. */
  function Pop(l: Limits, c: Conn): Conn {
    var n := Min(l.batchMessages, |c.outbound|);
    c.(outbound := c.outbound[n..], submissions := c.outbound[..n], offset := 0,
       wake := if n == 0 then false else c.wake)
  }

  predicate BatchFull(l: Limits, c: Conn) {
    |c.completions| >= l.batchMessages || c.pendingBytes >= l.batchBytes
  }

  predicate MustFlush(l: Limits, c: Conn) {
    c.pending != [] && BatchFull(l, c)
  }

  /** Split off as much of the current write as the batch has room for. */
  function Chunk(l: Limits, c: Conn): Conn
    requires c.submissions != [] && c.offset < |c.submissions[0].data| && c.pendingBytes < l.batchBytes
  {
    var w := c.submissions[0];
    var size := Min(l.batchBytes - c.pendingBytes, |w.data| - c.offset);
    var last := c.offset + size == |w.data|;
    c.(pending := c.pending + [w.data[c.offset..c.offset + size]], pendingBytes := c.pendingBytes + size,
       completions := if last then c.completions + [w] else c.completions,
       submissions := if last then c.submissions[1..] else c.submissions,
       offset := if last then 0 else c.offset + size)
  }

  /** The batch has been handed to the socket in full. */
  function Flushed(c: Conn): Conn {
    c.(messages := c.messages - |c.completions|, bytes := c.bytes - c.pendingBytes,
       pending := [], completions := [], pendingBytes := 0)
  }

  // ----- What the writer still has to send -----

  function Rest(c: Conn): seq<Byte> {
    if c.submissions == [] || c.offset > |c.submissions[0].data| then DataOf(c.submissions)
    else c.submissions[0].data[c.offset..] + DataOf(c.submissions[1..])
  }

  function Unsent(c: Conn): seq<Byte> {
    Concat(c.pending) + Rest(c) + DataOf(c.outbound)
  }

  function Unfinished(c: Conn): seq<Write> {
    c.completions + c.submissions + c.outbound
  }

  predicate NonEmpty(ws: seq<Write>) {
    forall k :: 0 <= k < |ws| ==> ws[k].data != []
  }

  /** The shape of a connection between two steps, with both counters equal to what is unsent. */
  predicate Shape(l: Limits, c: Conn) {
    && NonEmpty(c.submissions) && NonEmpty(c.outbound)
    && (if c.submissions == [] then c.offset == 0 else c.offset < |c.submissions[0].data|)
    && c.pendingBytes == |Concat(c.pending)| <= l.batchBytes && |c.completions| <= l.batchMessages
    && (c.pending == [] ==> c.completions == [])
    && c.messages == |Unfinished(c)| && c.bytes == |Unsent(c)|
    && c.messages <= l.messages && c.bytes <= l.bytes
  }

  lemma ConcatAppend(a: seq<seq<Byte>>, chunk: seq<Byte>)
    ensures Concat(a + [chunk]) == Concat(a) + chunk
  {
    assert (a + [chunk])[..|a|] == a;
  }

  lemma {:induction false} DataConcat(a: seq<Write>, b: seq<Write>)
    ensures DataOf(a + b) == DataOf(a) + DataOf(b)
  {
    if a == [] {
      assert a + b == b;
    } else {
      assert (a + b)[1..] == a[1..] + b;
      DataConcat(a[1..], b);
    }
  }

  lemma DataOne(w: Write)
    ensures DataOf([w]) == w.data
  {
    assert [w][1..] == [];
  }

  lemma AdmitAppends(l: Limits, c: Conn, w: Write)
    requires Shape(l, c) && w.data != [] && Admit(l, c, w).1.Accepted?
    ensures var d := Admit(l, c, w).0;
            Shape(l, d) && Unsent(d) == Unsent(c) + w.data && Unfinished(d) == Unfinished(c) + [w]
  {
    DataConcat(c.outbound, [w]);
    DataOne(w);
    hide Concat, DataOf;
  }

  lemma PopMoves(l: Limits, c: Conn)
    requires Shape(l, c) && c.submissions == []
    ensures var d := Pop(l, c);
            Shape(l, d) && Unsent(d) == Unsent(c) && Unfinished(d) == Unfinished(c)
  {
    var n := Min(l.batchMessages, |c.outbound|);
    var d := Pop(l, c);
    assert c.outbound == c.outbound[..n] + c.outbound[n..];
    DataConcat(c.outbound[..n], c.outbound[n..]);
    RestAtStart(d);
    hide Concat, DataOf, Rest;
    assert Rest(c) == [] by { RestAtStart(c); EmptyData(); }
  }

  lemma EmptyData()
    ensures DataOf([]) == []
  {
  }

  lemma RestAtStart(c: Conn)
    requires c.offset == 0
    ensures Rest(c) == DataOf(c.submissions)
  {
    if c.submissions != [] { assert c.submissions[0].data[0..] == c.submissions[0].data; }
  }

  lemma RestIs(c: Conn)
    requires c.submissions != [] && c.offset < |c.submissions[0].data|
    ensures Rest(c) == c.submissions[0].data[c.offset..] + DataOf(c.submissions[1..])
  {
  }

  lemma RestSplits(l: Limits, c: Conn)
    requires c.submissions != [] && c.offset < |c.submissions[0].data| && c.pendingBytes < l.batchBytes
    ensures var d := Chunk(l, c);
            && d.pending == c.pending + [d.pending[|c.pending|]] && d.pending[|c.pending|] != []
            && Rest(c) == d.pending[|c.pending|] + Rest(d)
            && d.pendingBytes == c.pendingBytes + |d.pending[|c.pending|]|
  {
    var w, d := c.submissions[0], Chunk(l, c);
    var end := c.offset + Min(l.batchBytes - c.pendingBytes, |w.data| - c.offset);
    var chunk, more := w.data[c.offset..end], DataOf(c.submissions[1..]);
    RestIs(c);
    hide Concat, DataOf, Rest;
    assert w.data[c.offset..] == chunk + w.data[end..];
    if end == |w.data| {
      RestAtStart(d);
      assert w.data[end..] == [];
      assert Rest(c) == chunk + more;
    } else {
      RestIs(d);
      assert Rest(c) == chunk + (w.data[end..] + more);
    }
  }

  lemma ChunkSplits(l: Limits, c: Conn)
    requires Shape(l, c) && c.submissions != [] && c.pendingBytes < l.batchBytes
    ensures var d := Chunk(l, c);
            && Concat(d.pending) + Rest(d) == Concat(c.pending) + Rest(c)
            && d.pending != [] && |Rest(d)| < |Rest(c)|
            && d.pendingBytes == |Concat(d.pending)|
  {
    hide Concat, DataOf, Rest, Chunk, Unsent, Unfinished;
    var d := Chunk(l, c);
    RestSplits(l, c);
    var chunk := d.pending[|c.pending|];
    ConcatAppend(c.pending, chunk);
    assert Concat(c.pending) + chunk + Rest(d) == Concat(c.pending) + (chunk + Rest(d));
  }

  /** What splitting leaves alone, and how it passes a finished write on. */
  lemma ChunkPasses(l: Limits, c: Conn)
    requires NonEmpty(c.submissions) && c.submissions != [] && c.offset < |c.submissions[0].data|
    requires c.pendingBytes < l.batchBytes
    ensures var d := Chunk(l, c);
            && d.outbound == c.outbound && d.messages == c.messages && d.bytes == c.bytes
            && d.completions + d.submissions == c.completions + c.submissions
            && |d.completions| <= |c.completions| + 1 && d.pendingBytes <= l.batchBytes
            && NonEmpty(d.submissions)
            && (if d.submissions == [] then d.offset == 0 else d.offset < |d.submissions[0].data|)
  {
    assert c.submissions == [c.submissions[0]] + c.submissions[1..];
  }

  /** Splitting moves bytes into the batch without touching their order, and keeps the batch within its limits. */
  lemma ChunkKeeps(l: Limits, c: Conn)
    requires Shape(l, c) && c.submissions != [] && c.pendingBytes < l.batchBytes && |c.completions| < l.batchMessages
    ensures var d := Chunk(l, c);
            && Shape(l, d) && Unsent(d) == Unsent(c) && Unfinished(d) == Unfinished(c)
            && d.pending != [] && |Rest(d)| < |Rest(c)|
  {
    hide Concat, DataOf, Rest, Chunk, NonEmpty;
    ChunkSplits(l, c);
    ChunkPasses(l, c);
  }

  lemma FlushedKeeps(l: Limits, c: Conn)
    requires Shape(l, c)
    ensures var d := Flushed(c);
            && Shape(l, d)
            && Unsent(c) == Concat(c.pending) + Unsent(d) && Unfinished(c) == c.completions + Unfinished(d)
            && Rest(d) == Rest(c)
  {
    var d := Flushed(c);
    assert Concat<Byte>([]) == [];
    assert Rest(d) == Rest(c);
    hide Concat, DataOf, Rest;
  }

  // ----- The connection object -----

  class TcpConnection {
    const limits: Limits
    var open: bool
    var outbound: seq<Write>
    var messages: int
    var bytes: int
    var wake: bool
    var submissions: seq<Write>
    var offset: nat
    var pending: seq<seq<Byte>>
    var completions: seq<Write>
    var pendingBytes: nat
    /** The bytes given to the socket and the writes reported as completed, in order. */
    var socket: seq<Byte>
    var reported: seq<Write>

    ghost function View(): Conn
      reads this
    {
      Conn(open, outbound, messages, bytes, wake, submissions, offset, pending, completions, pendingBytes)
    }

    constructor (limits: Limits)
      requires limits.Valid()
      ensures this.limits == limits && View() == FreshConn && socket == [] && reported == []
    {
      this.limits := limits;
      open, outbound, messages, bytes, wake := true, [], 0, 0, false;
      submissions, offset, pending, completions, pendingBytes := [], 0, [], [], 0;
      socket, reported := [], [];
    }

    method AdmitWrite(w: Write) returns (r: Admission)
      modifies this`outbound, this`messages, this`bytes, this`wake
      ensures (View(), r) == Admit(limits, old(View()), w)
    {
      if !open { return Closed; }
      if messages >= limits.messages || bytes + |w.data| > limits.bytes { return CapacityFull; }
      var wakes := outbound == [];
      outbound := outbound + [w];
      messages := messages + 1;
      bytes := bytes + |w.data|;
      if wakes && !wake {
        wake := true;
        return Accepted(true);
      }
      r := Accepted(false);
    }

    method PopSubmissions()
      requires submissions == [] && limits.Valid()
      modifies this
      ensures View() == Pop(limits, old(View())) && socket == old(socket) && reported == old(reported)
    {
      offset := 0;
      while outbound != [] && |submissions| < limits.batchMessages
        invariant |submissions| <= |old(outbound)| && |submissions| <= limits.batchMessages
        invariant submissions == old(outbound)[..|submissions|] && outbound == old(outbound)[|submissions|..]
        invariant View() == old(View()).(submissions := submissions, outbound := outbound, offset := 0)
        invariant socket == old(socket) && reported == old(reported)
        decreases |outbound|
      {
        submissions := submissions + [outbound[0]];
        outbound := outbound[1..];
      }
      if submissions == [] { wake := false; }
    }

    method SendBatch()
      modifies this
      ensures View() == Flushed(old(View()))
      ensures socket == old(socket) + Concat(old(pending)) && reported == old(reported) + old(completions)
    {
      socket := socket + Concat(pending);
      messages := messages - |completions|;
      bytes := bytes - pendingBytes;
      reported := reported + completions;
      pending, completions, pendingBytes := [], [], 0;
    }

    method QueueChunk()
      requires submissions != [] && offset < |submissions[0].data| && pendingBytes < limits.batchBytes
      modifies this
      ensures View() == Chunk(limits, old(View())) && socket == old(socket) && reported == old(reported)
    {
      var w := submissions[0];
      var available := limits.batchBytes - pendingBytes;
      var size := Min(available, |w.data| - offset);
      pending := pending + [w.data[offset..offset + size]];
      pendingBytes := pendingBytes + size;
      offset := offset + size;
      if offset == |w.data| {
        completions := completions + [w];
        submissions := submissions[1..];
        offset := 0;
      }
    }

    method FlushIf(full: bool)
      requires Shape(limits, View())
      modifies this
      ensures View() == if full then Flushed(old(View())) else old(View())
      ensures Shape(limits, View()) && Rest(View()) == Rest(old(View()))
      ensures socket + Unsent(View()) == old(socket + Unsent(View()))
      ensures reported + Unfinished(View()) == old(reported + Unfinished(View()))
    {
      hide Concat, DataOf, Rest, Shape, Unsent, Unfinished;
      if full {
        FlushedKeeps(limits, View());
        SendBatch();
      }
    }

    /** The splitting loop over the popped writes, with nobody writing meanwhile: it ends, and nothing is lost,
        repeated or reordered. */
    method SplitSubmissions()
      requires limits.Valid() && Shape(limits, View())
      modifies this
      ensures Shape(limits, View()) && submissions == []
      ensures socket + Unsent(View()) == old(socket + Unsent(View()))
      ensures reported + Unfinished(View()) == old(reported + Unfinished(View()))
    {
      hide Concat, DataOf, Rest, Shape, Unsent, Unfinished;
      while submissions != []
        invariant Shape(limits, View())
        invariant socket + Unsent(View()) == old(socket + Unsent(View()))
        invariant reported + Unfinished(View()) == old(reported + Unfinished(View()))
        decreases |Rest(View())|
      {
        FlushIf(pending != [] && (|completions| >= limits.batchMessages || pendingBytes >= limits.batchBytes));
        EmptyBatch(limits, View());
        ChunkKeeps(limits, View());
        QueueChunk();
        FlushIf(|completions| >= limits.batchMessages || pendingBytes >= limits.batchBytes || limits.immediate);
      }
    }
  }

  lemma EmptyBatch(l: Limits, c: Conn)
    requires Shape(l, c) && l.Valid() && !MustFlush(l, c)
    ensures c.pendingBytes < l.batchBytes && |c.completions| < l.batchMessages
    ensures c.submissions != [] ==> c.offset < |c.submissions[0].data|
  {
  }
}
