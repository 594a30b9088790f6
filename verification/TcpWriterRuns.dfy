/** Senders and the writer task of one TCP connection, interleaved at every await. */
module TcpWriterRuns {
  import opened Basics
  import opened TcpWriter

  /** Where the writer task is. A batch being sent is either full or overdue. */
  datatype Pc = Waiting | Draining | Splitting | Sending(overdue: bool) | Checking | Stopped

  /** `ready` is the writer's event and `wakers` the wake-ups under way. The rest is history: the writes admitted,
      the bytes on the socket, the writes reported as completed, whether the socket has failed, whether reporting
      has failed, and whether the connection has been cleaned up. */
  datatype World =
    World(conn: Conn, pc: Pc, ready: bool, wakers: nat, admitted: seq<Write>, socket: seq<Byte>, done: seq<Write>,
          failed: bool, silent: bool, cleaned: bool)

  datatype Event =
    | Writes(w: Write)
    | Wakes
    | Resumes
    | Pops
    | Splits
    | SendCompletes
    | SendFails(count: nat)
    | ReportFails(count: nat)
    | Checks(due: bool)
    | CloseRequested
    | Cancelled
    | CleansUp

  const InitWorld := World(FreshConn, Waiting, false, 0, [], [], [], false, false, false)

  predicate Enabled(w: World, ev: Event) {
    match ev
    case Writes(x) => x.data != []
    case Wakes => w.wakers > 0
    case Resumes => w.pc.Waiting? && (w.ready || w.conn.pending != [])
    case Pops => w.pc.Draining?
    case Splits => w.pc.Splitting?
    case SendCompletes => w.pc.Sending?
    case SendFails(count) => w.pc.Sending? && count <= |Concat(w.conn.pending)|
    case ReportFails(count) => w.pc.Sending? && count < |w.conn.completions|
    case Checks(_) => w.pc.Checking?
    case CloseRequested => true
    case Cancelled => !w.pc.Sending?
    case CleansUp => w.pc.Stopped?
  }

  /** One turn of the splitting loop: flush first if the batch is full, else split off a chunk. */
  function Splitting1(l: Limits, w: World): World {
    var c := w.conn;
    if c.submissions == [] then w.(pc := Draining)
    else if MustFlush(l, c) then w.(pc := Sending(false))
    else if c.offset < |c.submissions[0].data| && c.pendingBytes < l.batchBytes then
      var d := Chunk(l, c);
      w.(conn := d, pc := if BatchFull(l, d) || l.immediate then Sending(false) else Splitting)
    else w.(pc := Stopped)
  }

  function Next(l: Limits, w: World, ev: Event): World
    requires Enabled(w, ev)
  {
    match ev
    case Writes(x) =>
      var (d, r) := Admit(l, w.conn, x);
      w.(conn := d, admitted := if r.Accepted? then w.admitted + [x] else w.admitted,
         wakers := if r.Accepted? && r.mustWake then w.wakers + 1 else w.wakers)
    case Wakes => w.(wakers := w.wakers - 1, ready := true)
    case Resumes => w.(ready := false, pc := Draining)
    case Pops =>
      if !w.conn.open then w.(pc := Stopped)
      else
        var d := Pop(l, w.conn);
        w.(conn := d, pc := if d.submissions == [] then Checking else Splitting)
    case Splits => Splitting1(l, w)
    case SendCompletes =>
      w.(conn := Flushed(w.conn), socket := w.socket + Concat(w.conn.pending), done := w.done + w.conn.completions,
         pc := if w.pc.overdue then Waiting else Splitting)
    case SendFails(count) =>
      w.(conn := w.conn.(open := false), socket := w.socket + Concat(w.conn.pending)[..count], failed := true,
         pc := Stopped)
    case ReportFails(count) =>
      w.(conn := Flushed(w.conn).(open := false), socket := w.socket + Concat(w.conn.pending),
         done := w.done + w.conn.completions[..count], silent := true, pc := Stopped)
    case Checks(due) => w.(pc := if w.conn.pending != [] && due then Sending(true) else Waiting)
    case CloseRequested => w.(conn := w.conn.(open := false))
    case Cancelled => w.(pc := Stopped)
    case CleansUp => w.(conn := FreshConn.(open := false), cleaned := true)
  }

  ghost predicate Runs(l: Limits, w0: World, evs: seq<Event>, w: World)
    decreases |evs|
  {
    if evs == [] then w == w0 else Enabled(w0, evs[0]) && Runs(l, Next(l, w0, evs[0]), evs[1..], w)
  }

  // ----- The invariant -----

  /** The bytes on the socket and those still unsent are, in order, the bytes of the admitted writes; so are the
      completed and the unfinished writes. After a failure the socket holds some of what was unsent, after a failed
      report some completed writes were not reported, and a cleaned up connection forgets what it had left. */
  predicate Conserved(w: World) {
    && (if w.failed || w.cleaned then
          w.socket <= DataOf(w.admitted)
        else
          w.socket + Unsent(w.conn) == DataOf(w.admitted))
    && (if w.silent || w.cleaned then
          |w.done| + |Unfinished(w.conn)| <= |w.admitted| && w.done <= w.admitted
        else
          w.done + Unfinished(w.conn) == w.admitted)
    && DataOf(w.done) <= w.socket
  }

  predicate Placed(w: World) {
    && (w.conn.submissions != [] ==> w.pc.Splitting? || (w.pc.Sending? && !w.pc.overdue) || w.pc.Stopped?)
    && (w.pc.Sending? ==> w.conn.pending != [])
    && (w.failed || w.silent || w.cleaned ==> w.pc.Stopped? && !w.conn.open)
    && (w.cleaned ==> w.conn.messages == 0 && w.conn.bytes == 0)
  }

  /** Queued writes are marked by the wake flag, and a set flag has a wake-up on its way or a writer at work. */
  predicate Awake(w: World) {
    w.conn.open && !w.pc.Stopped? ==>
      && (w.conn.outbound != [] ==> w.conn.wake)
      && (w.conn.wake ==>
            w.wakers > 0 || w.ready || !(w.pc.Waiting? || w.pc.Checking? || (w.pc.Sending? && w.pc.overdue)))
  }

  predicate Inv(l: Limits, w: World) {
    Shape(l, w.conn) && Conserved(w) && Placed(w) && Awake(w)
  }

  lemma PrefixOf(a: seq<Byte>, b: seq<Byte>, c: seq<Byte>)
    requires a + b == c
    ensures a <= c
  {
    assert c[..|a|] == a;
  }

  lemma AdmitEffect(l: Limits, c: Conn, x: Write)
    ensures var (d, r) := Admit(l, c, x);
            && (!r.Accepted? ==> d == c)
            && (r.Accepted? ==> c.open && d == c.(outbound := d.outbound, messages := d.messages, bytes := d.bytes,
                                                  wake := d.wake)
                                && d.wake == (c.wake || r.mustWake) && (c.outbound == [] ==> d.wake))
  {
  }

  lemma WriteConserves(l: Limits, w: World, x: Write)
    requires Inv(l, w) && x.data != [] && Admit(l, w.conn, x).1.Accepted?
    ensures Conserved(Next(l, w, Writes(x))) && Shape(l, Admit(l, w.conn, x).0)
  {
    hide Shape, Unsent, Unfinished, DataOf, Admit, Awake;
    AdmitEffect(l, w.conn, x);
    AdmitAppends(l, w.conn, x);
    DataConcat(w.admitted, [x]);
    DataOne(x);
    assert !w.failed && !w.silent && !w.cleaned;
    assert w.socket + (Unsent(w.conn) + x.data) == DataOf(w.admitted) + x.data;
    assert w.done + (Unfinished(w.conn) + [x]) == w.admitted + [x];
  }

  lemma WriteKeeps(l: Limits, w: World, x: Write)
    requires Inv(l, w) && x.data != []
    ensures Inv(l, Next(l, w, Writes(x)))
  {
    hide Shape, Conserved, Admit;
    AdmitEffect(l, w.conn, x);
    if Admit(l, w.conn, x).1.Accepted? { WriteConserves(l, w, x); } else { assert Next(l, w, Writes(x)) == w; }
  }

  lemma SplitKeeps(l: Limits, w: World)
    requires l.Valid() && Inv(l, w) && w.pc.Splitting?
    ensures Inv(l, Splitting1(l, w)) && !Splitting1(l, w).pc.Stopped?
  {
    var c := w.conn;
    if c.submissions != [] && !MustFlush(l, c) {
      EmptyBatch(l, c);
      ChunkKeeps(l, c);
      hide Shape, Unsent, Unfinished, Rest, DataOf;
    } else {
      hide Shape, Unsent, Unfinished, Rest, DataOf;
    }
  }

  lemma PopKeeps(l: Limits, w: World)
    requires l.Valid() && Inv(l, w) && w.pc.Draining?
    ensures Inv(l, Next(l, w, Pops))
  {
    hide Shape, Unsent, Unfinished, Rest, DataOf;
    assert w.conn.submissions == [];
    PopMoves(l, w.conn);
  }

  lemma SentConserves(l: Limits, w: World)
    requires Inv(l, w) && w.pc.Sending?
    ensures Conserved(Next(l, w, SendCompletes)) && Shape(l, Flushed(w.conn))
  {
    hide Shape, Unsent, Unfinished, Rest, DataOf, Concat;
    var c, d := w.conn, Flushed(w.conn);
    FlushedKeeps(l, c);
    CompletedAreSent(l, w);
    hide Flushed;
    assert w.socket + Concat(c.pending) + Unsent(d) == w.socket + (Concat(c.pending) + Unsent(d));
    assert w.done + c.completions + Unfinished(d) == w.done + (c.completions + Unfinished(d));
  }

  lemma SentKeeps(l: Limits, w: World)
    requires Inv(l, w) && w.pc.Sending?
    ensures Inv(l, Next(l, w, SendCompletes))
  {
    SentConserves(l, w);
    hide Shape, Conserved;
  }

  /** The writes a batch completes end within it. */
  lemma CompletedAreSent(l: Limits, w: World)
    requires Inv(l, w) && !w.failed && !w.silent && !w.cleaned
    ensures DataOf(w.done + w.conn.completions) <= w.socket + Concat(w.conn.pending)
  {
    var c := w.conn;
    var finished, open := w.done + c.completions, c.submissions + c.outbound;
    assert w.admitted == finished + open;
    DataConcat(finished, open);
    DataConcat(c.submissions, c.outbound);
    RestIsSuffix(l, c);
    hide Shape, Unfinished, DataOf, Concat;
    var sent := w.socket + Concat(c.pending);
    assert sent + (Rest(c) + DataOf(c.outbound)) == DataOf(finished) + DataOf(open);
    Longer(sent, Rest(c) + DataOf(c.outbound), DataOf(finished), DataOf(open));
  }

  lemma Longer(a: seq<Byte>, b: seq<Byte>, c: seq<Byte>, d: seq<Byte>)
    requires a + b == c + d && |b| <= |d|
    ensures c <= a
  {
    assert c == (c + d)[..|c|] == (a + b)[..|c|] == a[..|c|];
  }

  lemma RestIsSuffix(l: Limits, c: Conn)
    requires Shape(l, c)
    ensures |Rest(c)| <= |DataOf(c.submissions)|
  {
  }

  lemma FailSends(w: World, count: nat)
    requires Conserved(w) && !w.failed && !w.cleaned && count <= |Concat(w.conn.pending)|
    ensures w.socket + Concat(w.conn.pending)[..count] <= DataOf(w.admitted)
  {
    hide DataOf, Concat, Rest, Unfinished;
    var batch, rest := Concat(w.conn.pending), Rest(w.conn) + DataOf(w.conn.outbound);
    assert w.socket + Unsent(w.conn) == (w.socket + batch[..count]) + (batch[count..] + rest);
    PrefixOf(w.socket + batch[..count], batch[count..] + rest, DataOf(w.admitted));
  }

  lemma FailKeeps(l: Limits, w: World, count: nat)
    requires Inv(l, w) && w.pc.Sending? && count <= |Concat(w.conn.pending)|
    ensures Inv(l, Next(l, w, SendFails(count)))
  {
    hide DataOf, Concat, Shape, Unsent, Unfinished;
    FailSends(w, count);
    CloseIsFree(l, w.conn);
  }

  lemma ReportKeeps(l: Limits, w: World, count: nat)
    requires Inv(l, w) && w.pc.Sending? && count < |w.conn.completions|
    ensures Inv(l, Next(l, w, ReportFails(count)))
  {
    hide Shape, Unsent, Unfinished, Rest, DataOf, Concat;
    var v, c, d := Next(l, w, ReportFails(count)), w.conn, Flushed(w.conn);
    SentConserves(l, w);
    FlushedKeeps(l, c);
    CloseIsFree(l, d);
    var told := w.done + c.completions;
    assert told == v.done + c.completions[count..];
    DataConcat(v.done, c.completions[count..]);
    assert v.done <= w.admitted;
  }

  lemma CloseIsFree(l: Limits, c: Conn)
    requires Shape(l, c)
    ensures var d := c.(open := false); Shape(l, d) && Unsent(d) == Unsent(c) && Unfinished(d) == Unfinished(c)
  {
    hide Concat, DataOf;
  }

  lemma CleanUpKeeps(l: Limits, w: World)
    requires Inv(l, w) && w.pc.Stopped?
    ensures Inv(l, Next(l, w, CleansUp))
  {
    if !w.failed && !w.cleaned { PrefixOf(w.socket, Unsent(w.conn), DataOf(w.admitted)); }
    assert Concat<Byte>([]) == [] && DataOf([]) == [];
    hide Unsent, DataOf, Concat;
  }

  lemma OtherKeeps(l: Limits, w: World, ev: Event)
    requires Inv(l, w) && Enabled(w, ev)
    requires ev.Wakes? || ev.Resumes? || ev.Checks? || ev.CloseRequested? || ev.Cancelled?
    ensures Inv(l, Next(l, w, ev))
  {
    hide Concat, DataOf;
  }

  lemma StepKeepsInv(l: Limits, w: World, ev: Event)
    requires l.Valid() && Inv(l, w) && Enabled(w, ev)
    ensures Inv(l, Next(l, w, ev))
  {
    hide Inv;
    match ev
    case Writes(x) => WriteKeeps(l, w, x);
    case Pops => PopKeeps(l, w);
    case Splits => SplitKeeps(l, w);
    case SendCompletes => SentKeeps(l, w);
    case SendFails(count) => FailKeeps(l, w, count);
    case ReportFails(count) => ReportKeeps(l, w, count);
    case CleansUp => CleanUpKeeps(l, w);
    case _ => OtherKeeps(l, w, ev);
  }

  lemma {:induction false} RunsKeepInv(l: Limits, w0: World, evs: seq<Event>, w: World)
    requires l.Valid() && Inv(l, w0) && Runs(l, w0, evs, w)
    ensures Inv(l, w)
    decreases |evs|
  {
    hide Inv, Next;
    if evs != [] {
      StepKeepsInv(l, w0, evs[0]);
      RunsKeepInv(l, Next(l, w0, evs[0]), evs[1..], w);
    }
  }

  lemma ReachedInv(l: Limits, evs: seq<Event>, w: World)
    requires l.Valid() && Runs(l, InitWorld, evs, w)
    ensures Inv(l, w)
  {
    RunsKeepInv(l, InitWorld, evs, w);
  }

  // ----- The theorems -----

  /** Whatever the limits and however writes, sends and failures interleave, the socket gets a prefix of the
      concatenation of the admitted writes. */
  lemma SocketGetsPrefix(l: Limits, evs: seq<Event>, w: World)
    requires l.Valid() && Runs(l, InitWorld, evs, w)
    ensures w.socket <= DataOf(w.admitted)
  {
    ReachedInv(l, evs, w);
    if !w.failed && !w.cleaned { PrefixOf(w.socket, Unsent(w.conn), DataOf(w.admitted)); }
  }

  /** Completions come once each, in the order of admission, and only after the last byte. */
  lemma CompletionsFollowBytes(l: Limits, evs: seq<Event>, w: World, k: nat)
    requires l.Valid() && Runs(l, InitWorld, evs, w) && k < |w.done|
    ensures k < |w.admitted| && w.done[k] == w.admitted[k]
    ensures DataOf(w.admitted[..k + 1]) <= w.socket
  {
    ReachedInv(l, evs, w);
    hide Shape, Unsent;
    assert w.admitted[..k + 1] == w.done[..k + 1];
    assert w.done == w.done[..k + 1] + w.done[k + 1..];
    DataConcat(w.done[..k + 1], w.done[k + 1..]);
    assert DataOf(w.done[..k + 1]) <= DataOf(w.done);
  }

  /** No batch exceeds its limits, and no split step is a dead end. */
  lemma BatchesAreBounded(l: Limits, evs: seq<Event>, w: World)
    requires l.Valid() && Runs(l, InitWorld, evs, w)
    ensures |Concat(w.conn.pending)| <= l.batchBytes && |w.conn.completions| <= l.batchMessages
    ensures w.pc.Splitting? ==> !Splitting1(l, w).pc.Stopped?
  {
    ReachedInv(l, evs, w);
    if w.pc.Splitting? { SplitKeeps(l, w); }
  }

  /** The counters equal what is unsent, so admission respects both limits, on a closed connection too until it is
      cleaned up; then both are zero. */
  lemma CountersAreExact(l: Limits, evs: seq<Event>, w: World)
    requires l.Valid() && Runs(l, InitWorld, evs, w)
    ensures if w.cleaned then w.conn.messages == 0
            else w.conn.messages <= l.messages && (!w.silent ==> w.conn.messages == |w.admitted| - |w.done|)
    ensures if w.cleaned then w.conn.bytes == 0
            else w.conn.bytes <= l.bytes && (!w.failed ==> w.conn.bytes == |DataOf(w.admitted)| - |w.socket|)
    ensures w.conn.messages <= |w.admitted| - |w.done|
  {
    ReachedInv(l, evs, w);
    hide DataOf, Rest, Concat;
  }

  /** Work left on an open connection never finds the writer asleep with no wake-up on its way. */
  lemma WriterIsWoken(l: Limits, evs: seq<Event>, w: World)
    requires l.Valid() && Runs(l, InitWorld, evs, w)
    requires w.conn.open && w.pc.Waiting? && w.conn.outbound != []
    ensures w.wakers > 0 || w.ready
  {
    ReachedInv(l, evs, w);
  }

  /** Splitting terminates: every turn that does not flush leaves fewer bytes to split. */
  lemma SplittingShrinks(l: Limits, evs: seq<Event>, w: World)
    requires l.Valid() && Runs(l, InitWorld, evs, w) && w.pc.Splitting? && w.conn.submissions != []
    ensures MustFlush(l, w.conn) || |Rest(Splitting1(l, w).conn)| < |Rest(w.conn)|
  {
    ReachedInv(l, evs, w);
    if !MustFlush(l, w.conn) {
      EmptyBatch(l, w.conn);
      ChunkKeeps(l, w.conn);
    }
  }
}
