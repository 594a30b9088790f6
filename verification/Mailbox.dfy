/** The default mailbox: one lock, two queues and the flags that decide who runs the next batch.

    Every function here is one critical section of the mailbox, and the class has one method for each. Messages are
    identified by a stamp. A message that is queued together with an activation request travels in an entry of its
    own, by which a rejected request finds it again.
 */
module Mailbox {
  import opened Basics

  datatype Item = Item(id: nat, entry: bool)

  datatype Config = Config(capacity: nat, throughput: nat) {
    predicate Valid() { capacity > 0 && throughput > 0 }
  }

  datatype Box = Box(user: seq<Item>, system: seq<Item>, inFlight: nat, scheduled: bool, running: bool,
                     inlineRun: bool, accepting: bool, closed: bool)

  const FreshBox := Box([], [], 0, false, false, false, true, false)

  function Ids(items: seq<Item>): (r: seq<nat>)
    ensures |r| == |items| && forall k :: 0 <= k < |items| ==> r[k] == items[k].id
  {
    seq(|items|, k requires 0 <= k < |items| => items[k].id)
  }

  function Plain(ids: seq<nat>): (r: seq<Item>)
    ensures |r| == |ids| && forall k :: 0 <= k < |ids| ==> r[k] == Item(ids[k], false)
  {
    seq(|ids|, k requires 0 <= k < |ids| => Item(ids[k], false))
  }

  // ----- Sending -----

  datatype Admission = Stopping | Full | Queued | MustPublish

  function Enqueue(cfg: Config, b: Box, can: bool, id: nat, user: bool): (Box, Admission) {
    if b.closed || (user && !b.accepting) then (b, Stopping)
    else if user && |b.user| + b.inFlight >= cfg.capacity then (b, Full)
    else
      var entry := !(b.scheduled || (user && !can));
      var c := if user then b.(user := b.user + [Item(id, entry)]) else b.(system := b.system + [Item(id, entry)]);
      if entry then (c.(scheduled := true), MustPublish) else (c, Queued)
  }

  /** The queue without the entry of a message, if that is still there. */
  function Remove(items: seq<Item>, id: nat): seq<Item> {
    if items == [] then []
    else if items[0] == Item(id, true) then items[1..]
    else [items[0]] + Remove(items[1..], id)
  }

  /** After the dispatcher refused: take a user message back, keep a lifecycle message, and say whether another
      activation has to be published for what is queued. */
  function Rollback(b: Box, id: nat, user: bool): (Box, bool) {
    var target := if user then b.user else b.system;
    if Item(id, true) !in target then (b, false)
    else
      var c := if user then b.(user := Remove(b.user, id)) else b;
      if c.system != [] || c.user != [] then (c.(scheduled := true), true) else (c.(scheduled := false), false)
  }

  function Close(b: Box): Box {
    b.(accepting := false, closed := true, user := [], system := [], inFlight := 0)
  }

  function StopUser(b: Box): (Box, seq<nat>) {
    (b.(accepting := false, user := []), Ids(b.user))
  }

  // ----- Running -----

  function EnterRun(b: Box): (Box, bool) {
    if b.running then (b.(inlineRun := true), false) else (b.(running := true), true)
  }

  predicate HasWork(b: Box, can: bool) {
    !b.closed && (b.system != [] || (b.user != [] && can))
  }

  /** Give up the schedule unless there is something to do. */
  function Recheck(b: Box, can: bool): (Box, bool) {
    if HasWork(b, can) then (b, true) else (b.(scheduled := false), false)
  }

  datatype Batch = Nothing | Messages(ids: seq<nat>, system: bool)

  function Take(cfg: Config, b: Box, can: bool): (Box, Batch) {
    if !HasWork(b, can) then (b.(scheduled := false), Nothing)
    else if b.system != [] then
      var n := Min(cfg.throughput, |b.system|);
      (b.(system := b.system[n..]), Messages(Ids(b.system[..n]), true))
    else
      var n := Min(cfg.throughput, |b.user|);
      (b.(user := b.user[n..], inFlight := b.inFlight + n), Messages(Ids(b.user[..n]), false))
  }

  function Restore(b: Box, remaining: seq<nat>, system: bool): Box {
    var c := if system then b else b.(inFlight := 0);
    if c.closed || remaining == [] then c
    else if system then c.(system := Plain(remaining) + c.system) else c.(user := Plain(remaining) + c.user)
  }

  function Forget(b: Box): Box {
    b.(inFlight := 0)
  }

  /** Whether an activation came in meanwhile. */
  function Consume(b: Box): (Box, bool) {
    (b.(inlineRun := false), b.inlineRun)
  }

  function LeaveRun(b: Box): (Box, bool) {
    (b.(inlineRun := false, running := b.running && b.inlineRun), b.inlineRun)
  }

  // ----- The mailbox object -----

  class DefaultMailbox {
    const cfg: Config
    var user: seq<Item>
    var system: seq<Item>
    var inFlight: nat
    var scheduled: bool
    var running: bool
    var inlineRun: bool
    var accepting: bool
    var closed: bool

    ghost function View(): Box
      reads this
    {
      Box(user, system, inFlight, scheduled, running, inlineRun, accepting, closed)
    }

    constructor (cfg: Config)
      requires cfg.Valid()
      ensures this.cfg == cfg && View() == FreshBox
    {
      this.cfg := cfg;
      user, system, inFlight, scheduled, running, inlineRun := [], [], 0, false, false, false;
      accepting, closed := true, false;
    }

    method Admit(id: nat, isUser: bool, can: bool) returns (r: Admission)
      modifies this
      ensures (View(), r) == Enqueue(cfg, old(View()), can, id, isUser)
    {
      if closed || (isUser && !accepting) { return Stopping; }
      if isUser && |user| + inFlight >= cfg.capacity { return Full; }
      if scheduled || (isUser && !can) {
        if isUser { user := user + [Item(id, false)]; } else { system := system + [Item(id, false)]; }
        return Queued;
      }
      if isUser { user := user + [Item(id, true)]; } else { system := system + [Item(id, true)]; }
      scheduled := true;
      r := MustPublish;
    }

    method RemoveEntry(id: nat)
      modifies this`user
      ensures user == Remove(old(user), id)
    {
      var k := 0;
      while k < |user| && user[k] != Item(id, true)
        invariant 0 <= k <= |user| && user == old(user)
        invariant Remove(user, id) == user[..k] + Remove(user[k..], id)
        decreases |user| - k
      {
        assert user[k..][1..] == user[k + 1..] && user[..k + 1] == user[..k] + [user[k]];
        k := k + 1;
      }
      if k < |user| {
        assert user[k..][1..] == user[k + 1..];
        user := user[..k] + user[k + 1..];
      } else {
        assert user[k..] == [] && user[..k] == user;
      }
    }

    method AfterRejection(id: nat, isUser: bool) returns (fallback: bool)
      modifies this
      ensures (View(), fallback) == Rollback(old(View()), id, isUser)
    {
      var target := if isUser then user else system;
      if Item(id, true) !in target { return false; }
      if isUser { RemoveEntry(id); }
      fallback := system != [] || user != [];
      scheduled := fallback;
    }

    method CloseMailbox()
      modifies this
      ensures View() == Close(old(View()))
    {
      accepting, closed := false, true;
      user, system := [], [];
      inFlight := 0;
    }

    method StopUserMessages() returns (ids: seq<nat>)
      modifies this`accepting, this`user
      ensures (View(), ids) == StopUser(old(View()))
    {
      accepting := false;
      ids := Ids(user);
      user := [];
    }

    method Enter() returns (entered: bool)
      modifies this`running, this`inlineRun
      ensures (View(), entered) == EnterRun(old(View()))
    {
      if running { inlineRun := true; return false; }
      running := true;
      entered := true;
    }

    /** The checks before and after a batch. */
    method CheckWork(can: bool) returns (go: bool)
      modifies this`scheduled
      ensures (View(), go) == Recheck(old(View()), can)
    {
      if closed { scheduled := false; return false; }
      if system == [] && user == [] { scheduled := false; return false; }
      if system == [] && !can { scheduled := false; return false; }
      go := true;
    }

    method TakeBatch(can: bool) returns (batch: Batch)
      modifies this
      ensures (View(), batch) == Take(cfg, old(View()), can)
    {
      var go := CheckWork(can);
      if !go { return Nothing; }
      if system != [] {
        var ids, rest := PopLeft(system);
        system := rest;
        batch := Messages(ids, true);
      } else {
        var ids, rest := PopLeft(user);
        user := rest;
        batch := Messages(ids, false);
        inFlight := inFlight + |ids|;
      }
    }

    method PopLeft(source: seq<Item>) returns (ids: seq<nat>, rest: seq<Item>)
      ensures var n := Min(cfg.throughput, |source|); ids == Ids(source[..n]) && rest == source[n..]
    {
      ids, rest := [], source;
      var n := Min(cfg.throughput, |source|);
      for k := 0 to n
        invariant ids == Ids(source[..k]) && rest == source[k..]
      {
        ids, rest := ids + [rest[0].id], rest[1..];
      }
    }

    method RestoreBatch(remaining: seq<nat>, isSystem: bool)
      modifies this
      ensures View() == Restore(old(View()), remaining, isSystem)
    {
      if !isSystem { inFlight := 0; }
      if closed || remaining == [] { return; }
      if isSystem { system := Plain(remaining) + system; } else { user := Plain(remaining) + user; }
    }

    method ConsumeInline() returns (ran: bool)
      modifies this`inlineRun
      ensures (View(), ran) == Consume(old(View()))
    {
      ran := inlineRun;
      inlineRun := false;
    }

    method Leave() returns (again: bool)
      modifies this`running, this`inlineRun
      ensures (View(), again) == LeaveRun(old(View()))
    {
      again := inlineRun;
      inlineRun := false;
      if !again { running := false; }
    }
  }
}
