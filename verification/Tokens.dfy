/** The token provider's own code: the fields its mutex protects and the sections that run under it.
    Every section is shown to make exactly the move of the refresh machine it stands for. */
module Tokens {
  import opened Session
  import opened Refresh
  import opened MemoryStore

  /** The shared result of one refresh. `id` is its name in the machine. */
  class RefreshCall {
    const id: nat
    var done: bool
    var waiters: nat
    var tokens: Option<AuthTokens>
    var err: Option<Error>

    constructor (id: nat)
      ensures this.id == id && !done && waiters == 1 && tokens == None && err == None
    {
      this.id := id;
      done, waiters, tokens, err := false, 1, None, None;
    }

    /** What `refreshResult` returns. */
    function Result(): Result<string>
      reads this
    {
      if err.Some? then Err(err.value)
      else if tokens.None? || tokens.value.access == "" then Err(NotAuthenticated)
      else Ok(tokens.value.access)
    }

    ghost predicate Is(call: Call)
      reads this
    {
      && waiters == call.waiters
      && (done <==> call.worker.Done?)
      && (done ==> Result() == CallResult(call.worker.result))
    }
  }

  datatype Decision =
    | JoinedCall(call: RefreshCall)
    | Answer(result: Result<string>)
    | StartedCall(call: RefreshCall, source: AuthTokens)

  class TokenProvider {
    var inflight: RefreshCall?
    ghost var calls: map<nat, RefreshCall>   // every call this provider has made

    /** The provider's fields are those of the machine's client `c`. */
    ghost predicate Matches(c: Client)
      reads this, calls.Values
    {
      && calls.Keys == c.calls.Keys
      && (forall k <- calls :: calls[k].id == k && calls[k].Is(c.calls[k]))
      && (inflight == null <==> c.inflight.None?)
      && (inflight != null ==> c.inflight.value in calls && inflight == calls[c.inflight.value])
    }

    constructor ()
      ensures Matches(IDLE)
    {
      inflight, calls := null, map[];
    }

    /** The first and the second look at `inflight`. */
    method Look(ghost c: Client, ghost j: nat, ghost pc: Pc) returns (call: RefreshCall?)
      requires Matches(c) && j in c.callers
      modifies calls.Values`waiters
      ensures call == inflight && calls == old(calls)
      ensures Matches(if c.inflight.None? then c else JoinInflight(c, j, pc))
    {
      call := inflight;
      if call != null {
        call.waiters := call.waiters + 1;
      }
    }

    /** The third section. `next` names the call in case one is started. */
    method DecideUnderLock(stored: Option<AuthTokens>, req: Request, now: int, next: nat,
                           ghost c: Client, ghost j: nat) returns (d: Decision)
      requires Matches(c) && next !in calls
      requires j in c.callers && c.callers[j].req == req
      requires c.callers[j].pc.Deciding? && c.callers[j].pc.stored == stored
      modifies this, calls.Values`waiters
      ensures Matches(ThirdSection(c, j, now, next))
      ensures match d
        case JoinedCall(call) => old(inflight) == call
        case Answer(r) =>
          && old(inflight) == null && !Decide(stored, req, now).Rotate?
          && r == (match Decide(stored, req, now) case Serve(t) => Ok(t) case _ => Err(NotAuthenticated))
        case StartedCall(call, source) =>
          && old(inflight) == null && inflight == call && fresh(call)
          && Decide(stored, req, now) == Rotate(source)
    {
      if inflight != null {
        inflight.waiters := inflight.waiters + 1;
        return JoinedCall(inflight);
      }
      if stored.None? || stored.value.access == "" {
        return Answer(Err(NotAuthenticated));
      }
      if req.force && req.rejected != "" && req.rejected != stored.value.access {
        return Answer(Ok(stored.value.access));
      }
      if !req.force && !NeedsRefresh(stored.value, now) {
        return Answer(Ok(stored.value.access));
      }
      if stored.value.refresh == "" {
        return Answer(Err(NotAuthenticated));
      }
      var call := new RefreshCall(next);
      inflight := call;
      calls := calls[next := call];
      return StartedCall(call, stored.value);
    }

    /** Publish the result once; a newer call in flight is not disturbed. */
    method FinishRefresh(call: RefreshCall, tokens: Option<AuthTokens>, err: Option<Error>,
                         ghost hist: seq<Option<AuthTokens>>, ghost c: Client)
      requires Matches(c) && call.id in calls && calls[call.id] == call
      requires c.calls[call.id].worker.Finishing?
      requires var r := c.calls[call.id].worker.result;
        if r.Ok? then err.None? && tokens == Some(r.value) else err == Some(r.error)
      modifies this`inflight, call`tokens, call`err, call`done
      ensures calls == old(calls) && call.done
      ensures FinishStep(hist, c, call.id).Some? && Matches(FinishStep(hist, c, call.id).value)
    {
      ghost var Finishing(result, at) := c.calls[call.id].worker;
      ghost var finished := FinishStep(hist, c, call.id).value;
      assert finished.calls == c.calls[call.id := c.calls[call.id].(worker := Done(result, at, |hist|))];
      assert finished.inflight == if inflight == call then None else c.inflight;
      assert forall k <- calls :: k != call.id ==> calls[k] != call;
      call.tokens := tokens;
      call.err := err;
      call.done := true;
      if inflight == call {
        inflight := null;
      }
    }

    /** A cancelled waiter: the finished result if there is one, otherwise it leaves. */
    method StopWaiting(call: RefreshCall, ghost c: Client, ghost j: nat) returns (r: Result<string>)
      requires Matches(c) && WaitsOn(c, j) && c.callers[j].pc.call == call.id
      requires call.id in calls && calls[call.id] == call
      modifies call`waiters
      ensures old(call.done) ==> r == call.Result() && CollectStep(c, j).Some? && Matches(CollectStep(c, j).value)
      ensures !old(call.done) ==> r == Err(Cancelled) && LeaveStep(c, j).Some? && Matches(LeaveStep(c, j).value)
    {
      if call.done { return call.Result(); }
      if call.waiters > 0 {
        call.waiters := call.waiters - 1;
      }
      return Err(Cancelled);
    }
  }

  /** The worker's commit: one storage transaction, then the result it will publish. */
  method CommitRefreshed(store: MemoryStorage, source: AuthTokens, refreshed: AuthTokens,
                         gateCancelled: bool, lateCancelled: bool, now: int64)
    returns (tokens: Option<AuthTokens>, err: Option<Error>)
    requires store.Valid()
    modifies store
    ensures store.Valid()
    ensures err.None? <==> tokens.Some?
    ensures store.pending == old(store.pending) && store.generation == old(store.generation)
    ensures old(store.auth) != Some(source) || err.Some? ==> store.auth == old(store.auth)
    ensures old(store.auth).None? ==> err.Some?
    ensures !gateCancelled && !lateCancelled && old(store.auth).Some? && ValidAuth(refreshed) && refreshed.expiresAt > 0
            ==> err.None?
    ensures err.None? && refreshed.expiresAt > 0 ==>
              tokens == store.auth && (old(store.auth) == Some(source) ==> tokens == Some(refreshed))
  {
    var r := store.Transact(RefreshUpdate(source, refreshed), gateCancelled, lateCancelled, now);
    if r.Err? { return None, Some(r.error); }
    return Some(r.value), None;
  }
}
