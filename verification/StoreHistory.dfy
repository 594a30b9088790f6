/** The tables against the full history of committed changes, over every run of transactions. */
module StoreHistory {
  import opened Basics
  import opened DurableStore

  type History = seq<Change>

  /** Committed transactions, in commit order. An aborted transaction changes nothing and is not listed. */
  datatype Tx =
    | DoWrite(slice: nat, pid: PersistenceId, expected: nat, op: OperationId, content: Content)
    | DoRegister(name: ProjectionId, source: Source, mode: Mode, initial: Option<nat>)
    | DoAdvance(name: ProjectionId, from: nat, to: nat)
    | DoRetire(name: ProjectionId)
    | DoCompact(lowest: Option<nat>, limit: nat)

  ghost predicate Possible(db: Db, tx: Tx) {
    tx.DoCompact? ==> IsLowestOf(db, tx.lowest) && tx.limit > 0
  }

  function Apply(db: Db, tx: Tx): Db {
    match tx
    case DoWrite(slice, pid, expected, op, content) => Mutate(db, slice, pid, expected, op, content).0
    case DoRegister(name, source, mode, initial) => Register(db, name, source, mode, initial).0
    case DoAdvance(name, from, to) => Advance(db, name, from, to).0
    case DoRetire(name) => Retire(db, name)
    case DoCompact(lowest, limit) => CompactTo(db, lowest, limit).0
  }

  /** What a transaction adds to the history. */
  function Logged(db: Db, tx: Tx): History {
    if tx.DoWrite? && Mutate(db, tx.slice, tx.pid, tx.expected, tx.op, tx.content).1.Written?
    then [Change(db.sequence + 1, tx.pid, tx.slice, tx.expected + 1, tx.op, tx.content)]
    else []
  }

  /** `db` with history `h` is reached from `db0` with history `h0` by the transactions `txs`. */
  ghost predicate Reaches(txs: seq<Tx>, db0: Db, h0: History, db: Db, h: History) {
    if txs == [] then db == db0 && h == h0
    else Possible(db0, txs[0]) && Reaches(txs[1..], Apply(db0, txs[0]), h0 + Logged(db0, txs[0]), db, h)
  }

  ghost predicate Run(txs: seq<Tx>, db: Db, h: History) {
    Reaches(txs, EmptyDb, [], db, h)
  }

  // ----- The change feed -----

  /** The retained rows are exactly the contiguous offsets between the two marks. */
  ghost predicate FeedInv(db: Db, h: History) {
    && db.sequence == db.high == |h|
    && db.compacted <= db.high
    && db.changes == h[db.compacted..]
    && forall k :: 0 <= k < |h| ==> h[k].offset == k + 1
  }

  ghost predicate Numbered(h: History) {
    forall k :: 0 <= k < |h| ==> h[k].offset == k + 1
  }

  lemma {:induction false} MaxOffsetIsLast(h: History, from: nat)
    requires Numbered(h) && from <= |h|
    ensures MaxOffset(h[from..]) == if from == |h| then None else Some(|h|)
  {
    if from < |h| {
      var n := |h| - 1;
      assert h[from..][..|h[from..]| - 1] == h[..n][from..];
      MaxOffsetIsLast(h[..n], from);
    }
  }

  lemma {:induction false} OldestArePrefix(h: History, from: nat, through: nat, limit: nat)
    requires Numbered(h) && from <= |h| && from <= through
    ensures Oldest(h[from..], through, limit) == h[from..Min(Min(through, |h|), from + limit)]
    decreases |h| - from
  {
    if from < |h| && limit > 0 {
      assert h[from..][1..] == h[from + 1..];
      if from < through {
        OldestArePrefix(h, from + 1, through, limit - 1);
        var to := Min(Min(through, |h|), from + limit);
        assert h[from..to] == [h[from]] + h[from + 1..to];
      } else {
        NoneOld(h, from + 1, through, limit);
      }
    }
  }

  lemma {:induction false} NoneOld(h: History, from: nat, through: nat, limit: nat)
    requires Numbered(h) && from <= |h| && through <= from
    ensures Oldest(h[from..], through, limit) == []
    decreases |h| - from
  {
    if from < |h| {
      assert h[from..][1..] == h[from + 1..];
      NoneOld(h, from + 1, through, limit);
    }
  }

  lemma {:induction false} AfterIsSuffix(h: History, from: nat, offset: nat)
    requires Numbered(h) && from <= offset <= |h|
    ensures After(h[from..], offset) == h[offset..]
    decreases |h| - from
  {
    if from < |h| {
      assert h[from..][1..] == h[from + 1..];
      if from < offset { AfterIsSuffix(h, from + 1, offset); } else { AllAfter(h, from, offset); }
    }
  }

  lemma {:induction false} AllAfter(h: History, from: nat, offset: nat)
    requires Numbered(h) && offset <= from <= |h|
    ensures After(h[from..], offset) == h[from..]
    decreases |h| - from
  {
    if from < |h| {
      assert h[from..][1..] == h[from + 1..];
      AllAfter(h, from + 1, offset);
    }
  }

  /** Where a compaction leaves the floor. */
  function NewFloor(db: Db, lowest: Option<nat>, limit: nat): nat {
    if lowest.None? || lowest.value <= db.compacted then db.compacted
    else Min(Min(lowest.value, db.high), db.compacted + limit)
  }

  lemma CompactionMovesFloor(db: Db, h: History, lowest: Option<nat>, limit: nat)
    requires FeedInv(db, h) && limit > 0
    ensures var db' := CompactTo(db, lowest, limit).0; var floor := NewFloor(db, lowest, limit);
            db' == db.(compacted := floor, changes := h[floor..])
    ensures CompactTo(db, lowest, limit).1 == NewFloor(db, lowest, limit) - db.compacted
  {
    hide Oldest, After;
    if lowest.Some? && lowest.value > 0 {
      if lowest.value <= db.compacted {
        NoneOld(h, db.compacted, lowest.value, limit);
      } else {
        OldestArePrefix(h, db.compacted, lowest.value, limit);
        var floor := NewFloor(db, lowest, limit);
        if db.compacted < floor {
          AfterIsSuffix(h, db.compacted, floor);
        }
      }
    }
  }

  lemma ApplyKeepsFeed(db: Db, h: History, tx: Tx)
    requires FeedInv(db, h) && Possible(db, tx)
    ensures FeedInv(Apply(db, tx), h + Logged(db, tx))
  {
    hide MaxOffset, CompactTo;
    var h' := h + Logged(db, tx);
    if tx.DoCompact? {
      CompactionMovesFloor(db, h, tx.lowest, tx.limit);
      assert h' == h;
    } else if Logged(db, tx) != [] {
      WriteEffect(db, tx);
      assert h'[db.compacted..] == h[db.compacted..] + Logged(db, tx);
      MaxOffsetIsLast(h', db.compacted);
    } else {
      assert h' == h;
    }
  }

  /** Reopening always passes the feed consistency check. */
  lemma FeedInvIsConsistent(db: Db, h: History)
    requires FeedInv(db, h)
    ensures FeedConsistent(db)
  {
    MaxOffsetIsLast(h, db.compacted);
  }

  // ----- States and the ledger -----

  function FoldStates(h: History): map<PersistenceId, StateRow> {
    if h == [] then map[]
    else var c := h[|h| - 1]; FoldStates(h[..|h| - 1])[c.pid := StateRow(c.revision, c.op, c.content)]
  }

  function FoldLedger(h: History): map<(PersistenceId, OperationId), LedgerRow> {
    if h == [] then map[]
    else var c := h[|h| - 1]; FoldLedger(h[..|h| - 1])[(c.pid, c.op) := LedgerRow(c.content, c.revision)]
  }

  /** How many changes a persistence identity has had. */
  function Count(h: History, pid: PersistenceId): nat {
    if h == [] then 0 else Count(h[..|h| - 1], pid) + if h[|h| - 1].pid == pid then 1 else 0
  }

  ghost predicate FoldInv(db: Db, h: History) {
    && db.states == FoldStates(h)
    && db.ledger == FoldLedger(h)
    && (forall pid :: Revision(db.states, pid) == Count(h, pid))
    && Exact(h)
  }

  /** The history half of the invariant: revisions count up and no operation repeats. */
  ghost predicate Exact(h: History) {
    && (forall k :: 0 <= k < |h| ==> h[k].revision == Count(h[..k], h[k].pid) + 1)
    && (forall k :: 0 <= k < |h| ==> (h[k].pid, h[k].op) !in FoldLedger(h[..k]))
  }

  lemma ExactAppends(h: History, c: Change)
    requires Exact(h) && c.revision == Count(h, c.pid) + 1 && (c.pid, c.op) !in FoldLedger(h)
    ensures Exact(h + [c])
  {
    hide Count, FoldLedger;
    forall k | 0 <= k < |h + [c]|
      ensures (h + [c])[..k] == if k < |h| then h[..k] else h
    { }
  }

  lemma WriteEffect(db: Db, tx: Tx)
    requires Logged(db, tx) != []
    ensures var c := Logged(db, tx)[0]; var db' := Apply(db, tx);
            && Logged(db, tx) == [c] && c.offset == db.sequence + 1
            && c.revision == Revision(db.states, c.pid) + 1 && (c.pid, c.op) !in db.ledger
            && db' == db.(states := db.states[c.pid := StateRow(c.revision, c.op, c.content)],
                          ledger := db.ledger[(c.pid, c.op) := LedgerRow(c.content, c.revision)],
                          changes := db.changes + [c], sequence := c.offset, high := db'.high)
            && db'.high == MaxOffset(db.changes + [c]).value
  {
  }

  lemma WriteKeepsFold(db: Db, h: History, tx: Tx)
    requires FoldInv(db, h) && Logged(db, tx) != []
    ensures FoldInv(Apply(db, tx), h + Logged(db, tx))
  {
    hide Apply, Logged, Exact, MaxOffset;
    WriteEffect(db, tx);
    var db', c := Apply(db, tx), Logged(db, tx)[0];
    assert (h + [c])[..|h + [c]| - 1] == h;
    ExactAppends(h, c);
    forall pid ensures Revision(db'.states, pid) == Count(h + [c], pid) {
      assert Revision(db.states, pid) == Count(h, pid);
    }
  }

  lemma ApplyKeepsFold(db: Db, h: History, tx: Tx)
    requires FoldInv(db, h)
    ensures FoldInv(Apply(db, tx), h + Logged(db, tx))
  {
    if Logged(db, tx) == [] {
      assert h + Logged(db, tx) == h;
      assert Apply(db, tx).states == db.states && Apply(db, tx).ledger == db.ledger;
      hide Exact, Apply, Logged, Count;
    } else {
      WriteKeepsFold(db, h, tx);
    }
  }

  lemma {:induction false} ReachKeepsHistory(txs: seq<Tx>, db0: Db, h0: History, db: Db, h: History)
    requires Reaches(txs, db0, h0, db, h) && FeedInv(db0, h0) && FoldInv(db0, h0)
    ensures FeedInv(db, h) && FoldInv(db, h)
  {
    hide FeedInv, FoldInv, Apply, Logged;
    if txs != [] {
      ApplyKeepsFeed(db0, h0, txs[0]);
      ApplyKeepsFold(db0, h0, txs[0]);
      ReachKeepsHistory(txs[1..], Apply(db0, txs[0]), h0 + Logged(db0, txs[0]), db, h);
    }
  }

  lemma RunsKeepHistory(txs: seq<Tx>, db: Db, h: History)
    requires Run(txs, db, h)
    ensures FeedInv(db, h) && FoldInv(db, h)
  {
    ReachKeepsHistory(txs, EmptyDb, [], db, h);
  }

  // ----- What it means for the tables -----

  lemma ExactPrefix(h: History, n: nat)
    requires Exact(h) && n <= |h|
    ensures Exact(h[..n])
  {
    hide Count, FoldLedger;
    assert forall k :: 0 <= k < n ==> h[..n][..k] == h[..k];
  }

  lemma {:induction false} LedgerHasOnly(h: History, key: (PersistenceId, OperationId))
    requires key in FoldLedger(h)
    ensures exists k :: 0 <= k < |h| && key == (h[k].pid, h[k].op)
  {
    var n := |h| - 1;
    if key != (h[n].pid, h[n].op) {
      LedgerHasOnly(h[..n], key);
      var k :| 0 <= k < n && key == (h[..n][k].pid, h[..n][k].op);
      assert h[k] == h[..n][k];
    }
  }

  /** A later change does not touch the ledger entry of an earlier one. */
  lemma {:induction false} LedgerHasEach(h: History, k: nat)
    requires k < |h| && Exact(h)
    ensures (h[k].pid, h[k].op) in FoldLedger(h)
    ensures FoldLedger(h)[(h[k].pid, h[k].op)] == LedgerRow(h[k].content, h[k].revision)
  {
    var n := |h| - 1;
    if k < n {
      ExactPrefix(h, n);
      LedgerHasEach(h[..n], k);
      assert h[..n][k] == h[k];
    }
  }

  lemma {:induction false} CountBounds(h: History, pid: PersistenceId, k: nat)
    requires k <= |h|
    ensures Count(h[..k], pid) <= Count(h, pid)
  {
    if k < |h| {
      assert h[..|h| - 1][..k] == h[..k];
      CountBounds(h[..|h| - 1], pid, k);
    } else {
      assert h[..k] == h;
    }
  }

  lemma {:induction false} EachRevisionOccurs(h: History, pid: PersistenceId, r: nat)
    requires 1 <= r <= Count(h, pid) && Exact(h)
    ensures exists k :: 0 <= k < |h| && h[k].pid == pid && h[k].revision == r
  {
    var n := |h| - 1;
    if r <= Count(h[..n], pid) {
      ExactPrefix(h, n);
      EachRevisionOccurs(h[..n], pid, r);
      var k :| 0 <= k < n && h[..n][k].pid == pid && h[..n][k].revision == r;
      assert h[k].pid == pid && h[k].revision == r;
    } else {
      assert h[n].pid == pid && h[n].revision == r;
    }
  }

  /** In every reachable database the state table is the fold of all changes ever committed, and the feed passes
      the consistency check on reopening. */
  lemma StatesAreFoldOfHistory(txs: seq<Tx>, db: Db, h: History)
    requires Run(txs, db, h)
    ensures db.states == FoldStates(h) && FeedConsistent(db)
  {
    RunsKeepHistory(txs, db, h);
    FeedInvIsConsistent(db, h);
  }

  /** The revisions of an identity are exactly 1 to its current one. */
  lemma RevisionsAreExact(txs: seq<Tx>, db: Db, h: History, pid: PersistenceId, r: nat)
    requires Run(txs, db, h)
    ensures 1 <= r <= Revision(db.states, pid) <==> exists k :: 0 <= k < |h| && h[k].pid == pid && h[k].revision == r
  {
    hide FeedInv, Run;
    RunsKeepHistory(txs, db, h);
    assert Revision(db.states, pid) == Count(h, pid);
    if 1 <= r <= Count(h, pid) {
      EachRevisionOccurs(h, pid, r);
    }
    if k :| 0 <= k < |h| && h[k].pid == pid && h[k].revision == r {
      CountBounds(h, pid, k + 1);
      assert h[..k + 1][..k] == h[..k];
    }
  }

  /** Every change has its ledger row. */
  lemma LedgerHasHistory(txs: seq<Tx>, db: Db, h: History, k: nat)
    requires Run(txs, db, h) && k < |h|
    ensures (h[k].pid, h[k].op) in db.ledger
    ensures db.ledger[(h[k].pid, h[k].op)] == LedgerRow(h[k].content, h[k].revision)
  {
    RunsKeepHistory(txs, db, h);
    LedgerHasEach(h, k);
  }

  /** Changes of one identity carry increasing revisions and different operations. */
  lemma ChangesAreOrdered(txs: seq<Tx>, db: Db, h: History, i: nat, j: nat)
    requires Run(txs, db, h) && i < j < |h| && h[i].pid == h[j].pid
    ensures h[i].revision < h[j].revision && h[i].op != h[j].op && h[i].offset < h[j].offset
  {
    hide Run;
    RunsKeepHistory(txs, db, h);
    assert h[..i + 1][..i] == h[..i] && h[..j][..i + 1] == h[..i + 1] && h[..j][i] == h[i];
    CountBounds(h[..j], h[i].pid, i + 1);
    ExactPrefix(h, j);
    LedgerHasEach(h[..j], i);
  }

  lemma LedgerHasNothingElse(txs: seq<Tx>, db: Db, h: History, key: (PersistenceId, OperationId))
    requires Run(txs, db, h) && key in db.ledger
    ensures exists k :: 0 <= k < |h| && key == (h[k].pid, h[k].op)
  {
    RunsKeepHistory(txs, db, h);
    LedgerHasOnly(h, key);
  }

  // ----- Idempotency -----

  lemma ApplyKeepsLedger(db: Db, tx: Tx, key: (PersistenceId, OperationId))
    requires key in db.ledger
    ensures key in Apply(db, tx).ledger && Apply(db, tx).ledger[key] == db.ledger[key]
  {
  }

  lemma {:induction false} LedgerOnlyGrows(txs: seq<Tx>, db0: Db, h0: History, db: Db, h: History,
                                           key: (PersistenceId, OperationId))
    requires Reaches(txs, db0, h0, db, h) && key in db0.ledger
    ensures key in db.ledger && db.ledger[key] == db0.ledger[key]
  {
    hide Apply, Logged;
    if txs != [] {
      ApplyKeepsLedger(db0, txs[0], key);
      LedgerOnlyGrows(txs[1..], Apply(db0, txs[0]), h0 + Logged(db0, txs[0]), db, h, key);
    }
  }

  /** Once an operation has committed, replaying it after any further transactions, with any expected revision,
      changes nothing: it reports the original revision, or a conflict if the content differs. */
  lemma ReplayIsHarmless(db0: Db, h0: History, slice: nat, pid: PersistenceId, expected: nat, op: OperationId,
                         content: Content, txs: seq<Tx>, db: Db, h: History, later: nat, other: Content)
    requires Mutate(db0, slice, pid, expected, op, content).1.Written?
    requires Reaches(txs, Mutate(db0, slice, pid, expected, op, content).0, h0, db, h)
    ensures Mutate(db, slice, pid, later, op, other)
            == (db, if other == content then Duplicate(expected + 1) else Conflict)
  {
    var db1 := Mutate(db0, slice, pid, expected, op, content).0;
    assert db1.ledger[(pid, op)] == LedgerRow(content, expected + 1);
    LedgerOnlyGrows(txs, db1, h0, db, h, (pid, op));
  }
}
