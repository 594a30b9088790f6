/** The SQLite durable-state store: its tables and its transactions.

    Each transaction is given twice: as a function on the tables, and as a method that changes the tables row by
    row and is proved to agree with it. Fingerprints stand for the content they are computed from, and a
    persistence slice is a parameter of a write. Table rows are listed in primary-key order.
 */
module DurableStore {
  import opened Basics

  /** A manifest is the sequence of its UTF-8 bytes. */
  type Bytes = seq<bv8>
  type OperationId(==, !new)

  datatype PersistenceId = PersistenceId(entityType: string, entityId: string)
  datatype ProjectionId = ProjectionId(name: string, key: string)

  datatype Content = Live(manifest: Bytes, payload: Bytes) | Tombstone {
    function Size(): nat {
      match this
      case Live(manifest, payload) => |manifest| + |payload|
      case Tombstone => 0
    }
  }

  datatype StateRow = StateRow(revision: nat, op: OperationId, content: Content)
  datatype LedgerRow = LedgerRow(fingerprint: Content, revision: nat)
  datatype Change =
    Change(offset: nat, pid: PersistenceId, slice: nat, revision: nat, op: OperationId, content: Content)

  datatype Source = Source(entityType: string, minSlice: nat, maxSlice: nat)
  datatype Mode = AtLeastOnce | ExactlyOnce
  datatype OffsetRow = OffsetRow(source: Source, mode: Mode, offset: nat)

  /** `sequence` is the highest offset ever handed out by the AUTOINCREMENT key of the change table. */
  datatype Db = Db(states: map<PersistenceId, StateRow>, ledger: map<(PersistenceId, OperationId), LedgerRow>,
                   changes: seq<Change>, sequence: nat, high: nat, compacted: nat,
                   offsets: map<ProjectionId, OffsetRow>)

  const EmptyDb := Db(map[], map[], [], 0, 0, 0, map[])

  // ----- Writing states -----

  datatype WriteOutcome = Written(revision: nat) | Duplicate(original: nat) | Conflict
                        | Stale(expected: nat, actual: nat)

  function Revision(states: map<PersistenceId, StateRow>, pid: PersistenceId): nat {
    if pid in states then states[pid].revision else 0
  }

  function MaxOffset(changes: seq<Change>): Option<nat> {
    if changes == [] then None
    else
      var rest := MaxOffset(changes[..|changes| - 1]);
      var last := changes[|changes| - 1].offset;
      Some(if rest.Some? && rest.value > last then rest.value else last)
  }

  function Mutate(db: Db, slice: nat, pid: PersistenceId, expected: nat, op: OperationId, content: Content)
    : (Db, WriteOutcome)
  {
    if (pid, op) in db.ledger then
      (db, if db.ledger[(pid, op)].fingerprint != content then Conflict
           else Duplicate(db.ledger[(pid, op)].revision))
    else if Revision(db.states, pid) != expected then
      (db, Stale(expected, Revision(db.states, pid)))
    else
      var revision := expected + 1;
      var changes := db.changes + [Change(db.sequence + 1, pid, slice, revision, op, content)];
      (db.(states := db.states[pid := StateRow(revision, op, content)],
           ledger := db.ledger[(pid, op) := LedgerRow(content, revision)],
           changes := changes,
           sequence := db.sequence + 1,
           high := MaxOffset(changes).value),
       Written(revision))
  }

  // ----- Reading the change feed -----

  predicate Matches(source: Source, c: Change) {
    c.pid.entityType == source.entityType && source.minSlice <= c.slice <= source.maxSlice
  }

  /** The rows of a source between two offsets, in offset order. */
  function Select(changes: seq<Change>, source: Source, after: nat, through: nat): seq<Change> {
    if changes == [] then []
    else
      var c := changes[|changes| - 1];
      Select(changes[..|changes| - 1], source, after, through)
      + if Matches(source, c) && after < c.offset <= through then [c] else []
  }

  datatype ReadLimits = ReadLimits(rows: nat, bytes: nat, scan: nat, maxState: nat) {
    /** What the callers of a read are made to respect. */
    predicate Valid() { rows > 0 && scan > 0 && maxState <= bytes }
  }

  datatype Batch = Batch(changes: seq<Change>, offset: nat)
  datatype ReadOutcome = Got(batch: Batch) | Compacted(after: nat, floor: nat) | TooLarge

  function TotalSize(cs: seq<Change>): nat {
    if cs == [] then 0 else TotalSize(cs[..|cs| - 1]) + cs[|cs| - 1].content.Size()
  }

  /** How many of the rows a cursor that has already taken `n` of them goes on to take. */
  function Taken(rows: seq<Change>, n: nat, limits: ReadLimits): (r: nat)
    requires n <= |rows|
    ensures n <= r <= |rows|
    decreases |rows| - n
  {
    if n == limits.rows || n == |rows| || rows[n].content.Size() > limits.maxState
       || (n > 0 && TotalSize(rows[..n]) + rows[n].content.Size() > limits.bytes)
    then n else Taken(rows, n + 1, limits)
  }

  predicate StopsAt(rows: seq<Change>, n: nat, limits: ReadLimits)
    requires n <= |rows|
  {
    || n == limits.rows || n == |rows| || rows[n].content.Size() > limits.maxState
    || (n > 0 && TotalSize(rows[..n]) + rows[n].content.Size() > limits.bytes)
  }

  lemma TakenUnfolds(rows: seq<Change>, n: nat, limits: ReadLimits)
    requires n <= |rows|
    ensures Taken(rows, n, limits) == if StopsAt(rows, n, limits) then n else Taken(rows, n + 1, limits)
  {
  }

  lemma EmptyTotal()
    ensures TotalSize([]) == 0
  {
  }

  lemma TotalAppends(cs: seq<Change>, c: Change)
    ensures TotalSize(cs + [c]) == TotalSize(cs) + c.content.Size()
  {
    assert (cs + [c])[..|cs|] == cs;
  }

  function Read(db: Db, source: Source, after: nat, limits: ReadLimits): ReadOutcome {
    if after < db.compacted then Compacted(after, db.compacted)
    else
      var through := Min(db.high, after + limits.scan);
      var rows := Select(db.changes, source, after, through);
      var n := Taken(rows, 0, limits);
      if n < |rows| && n < limits.rows && rows[n].content.Size() > limits.maxState then TooLarge
      else if n == |rows| && n < limits.rows then Got(Batch(rows, Max(after, through)))
      else Got(Batch(rows[..n], if n > 0 then rows[n - 1].offset else after))
  }

  // ----- Projection offsets -----

  datatype Registration = Registered(offset: nat) | BaselineRequired | InvalidBaseline | SourceConflict

  function Register(db: Db, pid: ProjectionId, source: Source, mode: Mode, initial: Option<nat>): (Db, Registration) {
    if pid in db.offsets then
      var row := db.offsets[pid];
      (db, if row.source == source && row.mode == mode then Registered(row.offset) else SourceConflict)
    else if initial.None? && db.compacted > 0 then
      (db, BaselineRequired)
    else if initial.Some? && !(db.compacted <= initial.value <= db.high) then
      (db, InvalidBaseline)
    else
      var offset := if initial.None? then 0 else initial.value;
      (db.(offsets := db.offsets[pid := OffsetRow(source, mode, offset)]), Registered(offset))
  }

  /** Advance a stored offset if it is still the expected one. */
  function Advance(db: Db, pid: ProjectionId, expected: nat, offset: nat): (Db, bool) {
    if pid in db.offsets && db.offsets[pid].offset == expected then
      (db.(offsets := db.offsets[pid := db.offsets[pid].(offset := offset)]), true)
    else
      (db, false)
  }

  function Retire(db: Db, pid: ProjectionId): Db {
    db.(offsets := db.offsets - {pid})
  }

  // ----- Compaction -----

  ghost predicate IsLowest(offsets: map<ProjectionId, OffsetRow>, m: nat) {
    && (exists pid :: pid in offsets && offsets[pid].offset == m)
    && (forall pid :: pid in offsets ==> m <= offsets[pid].offset)
  }

  /** The rows up to `through`, or the first `limit` of them. */
  function Oldest(changes: seq<Change>, through: nat, limit: nat): seq<Change> {
    if changes == [] || limit == 0 then []
    else if changes[0].offset <= through then [changes[0]] + Oldest(changes[1..], through, limit - 1)
    else Oldest(changes[1..], through, limit)
  }

  function After(changes: seq<Change>, offset: nat): seq<Change> {
    if changes == [] then []
    else (if changes[0].offset > offset then [changes[0]] else []) + After(changes[1..], offset)
  }

  /** Delete the oldest rows that every projection has passed; `lowest` is the least stored offset, if any. */
  function CompactTo(db: Db, lowest: Option<nat>, limit: nat): (Db, int) {
    if lowest.None? || lowest.value == 0 then (db, 0)
    else
      var doomed := Oldest(db.changes, lowest.value, limit);
      if doomed == [] then (db, 0)
      else
        var floor := doomed[|doomed| - 1].offset;
        var kept := After(db.changes, floor);
        (db.(changes := kept, compacted := floor), |db.changes| - |kept|)
  }

  ghost predicate IsLowestOf(db: Db, lowest: Option<nat>) {
    if lowest.None? then db.offsets == map[] else IsLowest(db.offsets, lowest.value)
  }

  // ----- Reopening -----

  /** The consistency check of the feed metadata when a database is opened. */
  predicate FeedConsistent(db: Db) {
    && db.sequence == db.high
    && MaxOffset(db.changes) == if db.compacted == db.high then None else Some(db.high)
  }

  // ----- The store object -----

  class SqliteStore {
    var states: map<PersistenceId, StateRow>
    var ledger: map<(PersistenceId, OperationId), LedgerRow>
    var changes: seq<Change>
    var sequence: nat
    var high: nat
    var compacted: nat
    var offsets: map<ProjectionId, OffsetRow>

    ghost function View(): Db
      reads this
    {
      Db(states, ledger, changes, sequence, high, compacted, offsets)
    }

    constructor ()
      ensures View() == EmptyDb
    {
      states, ledger, changes, sequence, high, compacted, offsets := map[], map[], [], 0, 0, 0, map[];
    }

    method SelectMaxOffset() returns (max: Option<nat>)
      ensures max == MaxOffset(changes)
    {
      max := None;
      for k := 0 to |changes|
        invariant max == MaxOffset(changes[..k])
      {
        assert changes[..k + 1][..k] == changes[..k];
        if max.None? || max.value <= changes[k].offset { max := Some(changes[k].offset); }
      }
      assert changes[..|changes|] == changes;
    }

    method Write(slice: nat, pid: PersistenceId, expected: nat, op: OperationId, content: Content)
      returns (outcome: WriteOutcome)
      modifies this
      ensures (View(), outcome) == Mutate(old(View()), slice, pid, expected, op, content)
    {
      if (pid, op) in ledger {
        var duplicate := ledger[(pid, op)];
        if duplicate.fingerprint != content { return Conflict; }
        return Duplicate(duplicate.revision);
      }
      var actual := if pid in states then states[pid].revision else 0;
      if actual != expected { return Stale(expected, actual); }
      var revision := actual + 1;
      states := states[pid := StateRow(revision, op, content)];
      ledger := ledger[(pid, op) := LedgerRow(content, revision)];
      sequence := sequence + 1;
      changes := changes + [Change(sequence, pid, slice, revision, op, content)];
      var max := SelectMaxOffset();
      high := max.value;
      outcome := Written(revision);
    }

    method SelectRows(source: Source, after: nat, through: nat) returns (rows: seq<Change>)
      ensures rows == Select(changes, source, after, through)
    {
      rows := [];
      for k := 0 to |changes|
        invariant rows == Select(changes[..k], source, after, through)
      {
        assert changes[..k + 1][..k] == changes[..k];
        var c := changes[k];
        if Matches(source, c) && after < c.offset <= through { rows := rows + [c]; }
      }
      assert changes[..|changes|] == changes;
    }

    /** The cursor loop of a batch read. */
    method ReadBatch(source: Source, after: nat, limits: ReadLimits) returns (outcome: ReadOutcome)
      requires limits.Valid()
      ensures outcome == Read(View(), source, after, limits)
    {
      hide Taken, Select, TotalSize;
      if after < compacted { return Compacted(after, compacted); }
      var through := Min(high, after + limits.scan);
      var cursor := SelectRows(source, after, through);
      var rows: seq<Change> := [];
      var retained := 0;
      var exhausted := false;
      EmptyTotal();
      while |rows| < limits.rows
        invariant |rows| <= |cursor| && |rows| <= limits.rows && rows == cursor[..|rows|]
        invariant retained == TotalSize(rows)
        invariant Taken(cursor, 0, limits) == Taken(cursor, |rows|, limits)
        invariant !exhausted
        decreases limits.rows - |rows|
      {
        TakenUnfolds(cursor, |rows|, limits);
        if |rows| == |cursor| {
          exhausted := true;
          break;
        }
        var row := cursor[|rows|];
        var size := row.content.Size();
        if size > limits.maxState { return TooLarge; }
        if rows != [] && retained + size > limits.bytes { break; }
        assert cursor[..|rows| + 1] == rows + [row];
        TotalAppends(rows, row);
        rows := rows + [row];
        retained := retained + size;
      }
      TakenUnfolds(cursor, |rows|, limits);
      if exhausted {
        assert cursor[..|cursor|] == cursor;
        outcome := Got(Batch(rows, Max(after, through)));
      } else {
        outcome := Got(Batch(rows, rows[|rows| - 1].offset));
      }
    }

    method RegisterProjection(pid: ProjectionId, source: Source, mode: Mode, initial: Option<nat>)
      returns (outcome: Registration)
      modifies this`offsets
      ensures (View(), outcome) == Register(old(View()), pid, source, mode, initial)
    {
      if pid !in offsets {
        var offset := 0;
        if initial.None? {
          if compacted > 0 { return BaselineRequired; }
        } else if !(compacted <= initial.value <= high) {
          return InvalidBaseline;
        } else {
          offset := initial.value;
        }
        offsets := offsets[pid := OffsetRow(source, mode, offset)];
        return Registered(offset);
      }
      var row := offsets[pid];
      outcome := if row.source == source && row.mode == mode then Registered(row.offset) else SourceConflict;
    }

    method SaveOffset(pid: ProjectionId, expected: nat, offset: nat) returns (saved: bool)
      modifies this`offsets
      ensures (View(), saved) == Advance(old(View()), pid, expected, offset)
    {
      saved := pid in offsets && offsets[pid].offset == expected;
      if saved { offsets := offsets[pid := offsets[pid].(offset := offset)]; }
    }

    method RetireProjection(pid: ProjectionId)
      modifies this`offsets
      ensures View() == Retire(old(View()), pid)
    {
      offsets := offsets - {pid};
    }

    method SelectLowest() returns (lowest: Option<nat>)
      ensures IsLowestOf(View(), lowest)
    {
      lowest := None;
      var rest := offsets.Keys;
      while rest != {}
        invariant rest <= offsets.Keys
        invariant lowest.None? ==> rest == offsets.Keys
        invariant lowest.Some? ==> exists p :: p in offsets && offsets[p].offset == lowest.value
        invariant lowest.Some? ==> forall p :: p in offsets && p !in rest ==> lowest.value <= offsets[p].offset
        decreases rest
      {
        var pid :| pid in rest;
        rest := rest - {pid};
        if lowest.None? || offsets[pid].offset < lowest.value { lowest := Some(offsets[pid].offset); }
      }
      if lowest.None? { assert offsets.Keys == {}; assert offsets == map[]; }
    }

    method CompactChanges(limit: nat) returns (deleted: int, ghost lowest: Option<nat>)
      modifies this`changes, this`compacted
      ensures IsLowestOf(old(View()), lowest)
      ensures (View(), deleted) == CompactTo(old(View()), lowest, limit)
    {
      var minimum := SelectLowest();
      lowest := minimum;
      if minimum.None? || minimum.value == 0 { return 0, lowest; }
      var doomed := Oldest(changes, minimum.value, limit);
      if doomed == [] { return 0, lowest; }
      var floor := doomed[|doomed| - 1].offset;
      var kept := After(changes, floor);
      deleted := |changes| - |kept|;
      changes := kept;
      compacted := floor;
    }
  }
}
