/** The in-memory store: three fields replaced together under its gate. */
module MemoryStore {
  import opened Session

  class MemoryStorage {
    var auth: Option<AuthTokens>
    var pending: Option<Pending>
    var generation: uint64

    ghost function Snapshot(): State
      reads this
    {
      State(auth, pending, generation)
    }

    /** Whatever is stored has been checked, and every session carries its expiry. */
    ghost predicate Valid()
      reads this
    {
      Prepared(Snapshot())
    }

    constructor ()
      ensures Valid() && Snapshot() == EMPTY
    {
      auth, pending, generation := None, None, 0;
    }

    /** `gateCancelled`: the context ended before the gate was acquired. */
    method Load(gateCancelled: bool) returns (r: Result<State>)
      ensures r == if gateCancelled then Err(Cancelled) else Ok(Snapshot())
    {
      if gateCancelled { return Err(Cancelled); }
      return Ok(State(auth, pending, generation));
    }

    /** `lateCancelled`: the context ended while the callback was running. */
    method Transact<R>(update: Update<R>, gateCancelled: bool, lateCancelled: bool, now: int64) returns (r: Result<R>)
      requires Valid()
      modifies this
      ensures Valid()
      ensures gateCancelled ==> r == Err(Cancelled) && Snapshot() == old(Snapshot())
      ensures !gateCancelled ==>
                Outcome(Snapshot(), r) == Session.Transact(old(Snapshot()), update, lateCancelled, now)
    {
      if gateCancelled { return Err(Cancelled); }
      TransactKeepsPrepared(Snapshot(), update, lateCancelled, now);
      var edit := update(State(auth, pending, generation));
      if edit.Err? { return Err(edit.error); }
      if lateCancelled { return Err(Cancelled); }
      var (edited, captured) := edit.value;
      var prepared := PrepareSnapshot(edited, now);
      if prepared.Err? { return Err(prepared.error); }
      auth := prepared.value.auth;
      pending := prepared.value.pending;
      generation := edited.generation;
      return Ok(captured);
    }

    method Clear(gateCancelled: bool) returns (r: Result<()>)
      requires Valid()
      modifies this
      ensures Valid()
      ensures r == if gateCancelled then Err(Cancelled) else Ok(())
      ensures Snapshot() == if gateCancelled then old(Snapshot()) else State(None, None, NextGeneration(old(generation)))
    {
      if gateCancelled { return Err(Cancelled); }
      auth := None;
      pending := None;
      generation := NextGeneration(generation);
      return Ok(());
    }
  }
}
