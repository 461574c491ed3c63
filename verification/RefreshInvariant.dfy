/** The inductive invariant of the refresh machine and its preservation, step by step. */
module RefreshInvariant {
  import opened Session
  import opened Refresh

  ghost predicate Holds(pc: Pc) {
    pc.Holding? || pc.Loading? || pc.Deciding? || pc.Releasing?
  }

  /** The call a caller has joined and not left. */
  function On(pc: Pc): Option<nat> {
    match pc
    case Releasing(Join(k)) => Some(k)
    case Releasing(Lead(k)) => Some(k)
    case Launching(k) => Some(k)
    case Waiting(k) => Some(k)
    case _ => None
  }

  ghost function Waiters(c: Client, k: nat): set<nat> {
    set j | j in c.callers && On(c.callers[j].pc) == Some(k)
  }

  /** Version `at` of the session field is the session `a`. */
  ghost predicate At(hist: seq<Option<AuthTokens>>, at: nat, a: AuthTokens) {
    at < |hist| && hist[at] == Some(a)
  }

  ghost predicate CallOk(
    hist: seq<Option<AuthTokens>>, issued: map<AuthTokens, Origin>, p: nat, c: Client, k: nat, call: Call)
  {
    && At(hist, call.at, call.source)
    && (call.worker.Done? || c.inflight == Some(k))
    && (!call.worker.Done? ==> c.horizon <= call.at + 1)
    && (call.worker.Unlaunched? ==> call.leader in c.callers)
    && (call.worker.Granted? ==>
          call.worker.refreshed in issued && issued[call.worker.refreshed] == Exchanged(p, k, call.source.refresh))
    && (call.worker.Finishing? ==> LaterOk(hist, call.at, call.worker.result, call.worker.at))
    && (call.worker.Done? ==> LaterOk(hist, call.at, call.worker.result, call.worker.at)
                              && call.worker.closed <= c.horizon
                              && (call.worker.result.Ok? ==> call.worker.at < call.worker.closed))
  }

  /** A call that succeeds does so with a version later than the one it set out to refresh. */
  ghost predicate LaterOk(hist: seq<Option<AuthTokens>>, source: nat, r: Result<AuthTokens>, at: nat) {
    r.Ok? ==> source < at && At(hist, at, r.value) && r.value.access != ""
  }

  ghost predicate ResultOk(hist: seq<Option<AuthTokens>>, caller: Caller, r: Result<string>, at: nat) {
    r.Ok? ==>
      && at < |hist| && hist[at].Some? && hist[at].value.access == r.value && r.value != ""
      && (caller.req.force && caller.rejectedAt.Some? && caller.req.rejected != "" ==> r.value != caller.req.rejected)
  }

  ghost predicate PcOk(hist: seq<Option<AuthTokens>>, c: Client, j: nat, caller: Caller) {
    && (On(caller.pc).Some? ==>
          var k := On(caller.pc).value;
          k in c.calls && (caller.rejectedAt.Some? ==> caller.rejectedAt.value <= c.calls[k].at))
    && (caller.pc.Loading? || caller.pc.Deciding? ==> c.inflight.None?)
    && (caller.pc.Deciding? ==>
          caller.pc.at < |hist| && hist[caller.pc.at] == caller.pc.stored
          && c.horizon <= caller.pc.at + 1 && caller.born <= caller.pc.at)
    && (Leading(caller.pc).Some? ==>
          var k := Leading(caller.pc).value;
          k in c.calls && c.calls[k].leader == j && c.calls[k].worker.Unlaunched?)
    && (caller.pc.Releasing? && caller.pc.after.Give? ==>
          var Give(r, at) := caller.pc.after;
          ResultOk(hist, caller, r, at) && (r.Ok? ==> caller.born <= at < c.horizon))
    && (caller.pc.Finished? ==>
          var Finished(r, at, via) := caller.pc;
          ResultOk(hist, caller, r, at)
          && (r.Ok? ==> at < c.horizon && r.value in c.returned && (via.None? ==> caller.born <= at))
          && (via.Some? ==> r == Err(Cancelled) || Served(c, via.value, r, at)))
  }

  /** The call that has been created for this caller and whose worker it still has to start. */
  function Leading(pc: Pc): Option<nat> {
    match pc
    case Releasing(Lead(k)) => Some(k)
    case Launching(k) => Some(k)
    case _ => None
  }

  /** `r` is what the finished call `k` offers to each of its waiters. */
  ghost predicate Served(c: Client, k: nat, r: Result<string>, at: nat) {
    k in c.calls && c.calls[k].worker.Done? && c.calls[k].worker.at == at && CallResult(c.calls[k].worker.result) == r
  }

  ghost predicate CallerOk(hist: seq<Option<AuthTokens>>, c: Client, j: nat, caller: Caller) {
    && caller.born < |hist|
    && (Holds(caller.pc) <==> c.gate == Some(j))
    && (caller.rejectedAt.Some? ==>
          var at := caller.rejectedAt.value;
          at < c.horizon && at < |hist| && hist[at].Some? && hist[at].value.access == caller.req.rejected)
    && PcOk(hist, c, j, caller)
  }

  ghost predicate ClientOk(hist: seq<Option<AuthTokens>>, issued: map<AuthTokens, Origin>, p: nat, c: Client) {
    && c.horizon <= |hist|
    && (c.inflight.Some? ==> c.inflight.value in c.calls && !c.calls[c.inflight.value].worker.Done?)
    && (c.gate.Some? ==> c.gate.value in c.callers)
    && (forall k <- c.calls :: CallOk(hist, issued, p, c, k, c.calls[k]))
    && (forall j <- c.callers :: CallerOk(hist, c, j, c.callers[j]))
    && (forall t <- c.returned ::
          c.returned[t] < c.horizon && hist[c.returned[t]].Some? && hist[c.returned[t]].value.access == t)
  }

  /** `waiters` counts the callers that joined and have not left, until the call completes. */
  ghost predicate Counted(c: Client) {
    forall k <- c.calls :: !c.calls[k].worker.Done? ==> c.calls[k].waiters == |Waiters(c, k)|
  }

  /** Version i was written by a refresh: then it replaced exactly the session it exchanged. */
  ghost predicate Linked(w: World, i: nat)
    requires i < |w.hist|
  {
    w.hist[i].Some? && w.hist[i].value in w.issued && w.issued[w.hist[i].value].Exchanged? ==>
      var Exchanged(p, k, sent) := w.issued[w.hist[i].value];
      && i > 0 && w.hist[i - 1].Some? && w.hist[i - 1].value.refresh == sent
      && p in w.clients && k in w.clients[p].calls
      && w.clients[p].calls[k].source == w.hist[i - 1].value
      && (w.clients[p].calls[k].worker.Finishing? || w.clients[p].calls[k].worker.Done?)
      && (w.clients[p].calls[k].worker.Done? ==> i < w.clients[p].horizon)
  }

  ghost predicate HistOk(w: World) {
    && |w.hist| > 0
    && (forall i :: 0 <= i < |w.hist| && w.hist[i].Some? ==> w.hist[i].value in w.issued)
    && (forall i, j :: 0 <= i < j < |w.hist| && w.hist[i].Some? && w.hist[j].Some? ==> w.hist[i] != w.hist[j])
    && (forall a <- w.issued, b <- w.issued :: a.access == b.access || a.refresh == b.refresh ==> a == b)
    && (forall a <- w.issued :: a.access != "" && a.refresh != "")
    && (forall i :: 0 <= i < |w.hist| ==> Linked(w, i))
  }

  ghost predicate Inv(w: World) {
    && HistOk(w)
    && forall p <- w.clients :: ClientOk(w.hist, w.issued, p, w.clients[p]) && Counted(w.clients[p])
  }

  // ---------------------------------------------------------------- sessions are told apart by either token

  lemma VersionsDiffer(w: World, i: nat, j: nat)
    requires HistOk(w) && i < |w.hist| && j < |w.hist| && i != j && w.hist[i].Some? && w.hist[j].Some?
    ensures w.hist[i].value.access != w.hist[j].value.access && w.hist[i].value.refresh != w.hist[j].value.refresh
  {
    assert w.hist[i] != w.hist[j] by {
      if i < j {} else {}
    }
  }

  lemma SameSessionSameVersion(w: World, i: nat, j: nat)
    requires HistOk(w) && i < |w.hist| && j < |w.hist| && w.hist[i].Some? && w.hist[i] == w.hist[j]
    ensures i == j
  {
  }

  // ---------------------------------------------------------------- growth of the store seen by a client

  lemma ClientGrows(hist: seq<Option<AuthTokens>>, issued: map<AuthTokens, Origin>,
                    hist': seq<Option<AuthTokens>>, issued': map<AuthTokens, Origin>, p: nat, c: Client)
    requires ClientOk(hist, issued, p, c)
    requires hist <= hist'
    requires forall a <- issued :: a in issued' && issued'[a] == issued[a]
    ensures ClientOk(hist', issued', p, c)
  {
    forall k <- c.calls ensures CallOk(hist', issued', p, c, k, c.calls[k]) {
      assert CallOk(hist, issued, p, c, k, c.calls[k]);
    }
    forall j <- c.callers ensures CallerOk(hist', c, j, c.callers[j]) {
      assert CallerOk(hist, c, j, c.callers[j]);
    }
  }

  // ---------------------------------------------------------------- counting

  ghost function Others(c: Client, j: nat, k: nat): set<nat> {
    set i | i in c.callers && i != j && On(c.callers[i].pc) == Some(k)
  }

  lemma WaitersSplit(c: Client, j: nat, k: nat)
    ensures |Waiters(c, k)| == |Others(c, j, k)| + (if j in c.callers && On(c.callers[j].pc) == Some(k) then 1 else 0)
  {
    if j in c.callers && On(c.callers[j].pc) == Some(k) {
      assert Waiters(c, k) == Others(c, j, k) + {j};
    } else {
      assert Waiters(c, k) == Others(c, j, k);
    }
  }

  /** Only caller `j` changed: the waiter sets gain or lose it and nothing else. */
  lemma WaitersMove(c: Client, c': Client, j: nat, k: nat)
    requires c'.callers.Keys == c.callers.Keys + {j}
    requires forall i <- c.callers :: i != j ==> c'.callers[i] == c.callers[i]
    ensures |Waiters(c', k)| ==
      |Waiters(c, k)|
      - (if j in c.callers && On(c.callers[j].pc) == Some(k) then 1 else 0)
      + (if On(c'.callers[j].pc) == Some(k) then 1 else 0)
  {
    WaitersSplit(c, j, k);
    WaitersSplit(c', j, k);
    assert j in c'.callers;
    assert forall i :: i != j ==> (i in c'.callers <==> i in c.callers);
    assert Others(c', j, k) == Others(c, j, k);
  }

  // ---------------------------------------------------------------- steps inside a client

  /** The parts of a caller's condition that the rest of the client can disturb. */
  lemma OtherCallers(hist: seq<Option<AuthTokens>>, c: Client, c': Client, j: nat)
    requires forall i <- c.callers :: CallerOk(hist, c, i, c.callers[i])
    requires forall i <- c.callers :: i != j ==> i in c'.callers && c'.callers[i] == c.callers[i]
    requires forall i <- c'.callers :: i != j ==> i in c.callers
    requires c.horizon <= c'.horizon && c.returned.Keys <= c'.returned.Keys
    requires forall k <- c.calls :: k in c'.calls && c'.calls[k].source == c.calls[k].source
               && c'.calls[k].at == c.calls[k].at && c'.calls[k].leader == c.calls[k].leader
               && (c.calls[k].worker.Done? ==> c'.calls[k].worker == c.calls[k].worker)
               && (c.calls[k].worker.Unlaunched? && c.calls[k].leader != j ==> c'.calls[k].worker.Unlaunched?)
    requires c'.gate == c.gate || (c.gate.None? && c'.gate == Some(j)) || (c.gate == Some(j) && c'.gate.None?)
    requires (c'.inflight == c.inflight && c'.horizon == c.horizon) || c.gate == Some(j)
             || (c.inflight.Some? && c'.inflight.None?)
    ensures forall i <- c'.callers :: i != j ==> CallerOk(hist, c', i, c'.callers[i])
  {
    forall i <- c'.callers | i != j ensures CallerOk(hist, c', i, c'.callers[i]) {
      assert CallerOk(hist, c, i, c.callers[i]);
    }
  }

  /** The parts of a call's condition that the rest of the client can disturb. */
  lemma OtherCalls(hist: seq<Option<AuthTokens>>, issued: map<AuthTokens, Origin>, p: nat, c: Client, c': Client, k: nat)
    requires forall i <- c.calls :: CallOk(hist, issued, p, c, i, c.calls[i])
    requires forall i <- c'.calls :: i != k ==> i in c.calls && c'.calls[i] == c.calls[i]
    requires forall j <- c.callers :: j in c'.callers
    requires c.horizon <= c'.horizon
    requires (c'.inflight == c.inflight && c'.horizon == c.horizon) || c.inflight.None? || c.inflight == Some(k)
    ensures forall i <- c'.calls :: i != k ==> CallOk(hist, issued, p, c', i, c'.calls[i])
  {
    forall i <- c'.calls | i != k ensures CallOk(hist, issued, p, c', i, c'.calls[i]) {
      assert CallOk(hist, issued, p, c, i, c.calls[i]);
    }
  }
}
