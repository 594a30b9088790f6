/** The loop of one projection runner, step by step, against the runs of ProjectionRuns. */
module ProjectionRunner {
  import opened DurableStore
  import opened ProjectionRuns

  class Loop {
    const store: SqliteStore
    const name: ProjectionId
    const source: Source
    const mode: Mode
    var offset: nat
    var stage: Stage

    ghost function View(): Runner
      reads this
    {
      Runner(name, source, mode, offset, stage)
    }

    /** The runner and the store it works on are what the state of a run says. */
    ghost predicate In(w: World, id: nat)
      reads this, store
    {
      id in w.runners && w.runners[id] == View() && w.db == store.View()
    }

    constructor (store: SqliteStore, name: ProjectionId, source: Source, mode: Mode, offset: nat)
      ensures this.store == store && View() == Runner(name, source, mode, offset, Polling)
    {
      this.store, this.name, this.source, this.mode := store, name, source, mode;
      this.offset, this.stage := offset, Polling;
    }

    /** Read the next batch. The loop ends when its history has been compacted away. */
    method Load(limits: ReadLimits, ghost w: World, ghost id: nat) returns (alive: bool)
      requires In(w, id) && stage.Polling? && limits.Valid()
      modifies this`stage
      ensures alive <==> id in Next(w, Event.Poll(id, limits)).runners
      ensures alive ==> In(Next(w, Event.Poll(id, limits)), id)
    {
      var outcome := store.ReadBatch(source, offset, limits);
      match outcome
      case Got(batch) => stage, alive := Loaded(batch), true;
      case Compacted(_, _) => alive := false;
      case TooLarge => alive := true;
    }

    /** Save the offset of a batch that was handled or is applied in the same transaction. The loop ends when the
        stored offset is not the one it expects; it keeps its own offset when no reply arrives. */
    method Save(reply: bool, ghost w: World, ghost id: nat) returns (alive: bool)
      requires In(w, id) && ReadyToCommit(View())
      modifies this`stage, this`offset, store`offsets
      ensures store.View() == Next(w, Event.Commit(id, reply)).db
      ensures alive <==> id in Next(w, Event.Commit(id, reply)).runners
      ensures alive ==> In(Next(w, Event.Commit(id, reply)), id)
    {
      var batch := stage.batch;
      alive := true;
      if batch.offset != offset {
        alive := store.SaveOffset(name, offset, batch.offset);
        if alive && reply { offset := batch.offset; }
      }
      if alive { stage := Polling; }
    }
  }
}
