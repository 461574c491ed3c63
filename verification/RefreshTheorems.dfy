/** What the refresh protocol promises, over every run of any number of clients. */
module RefreshTheorems {
  import opened Session
  import opened Refresh
  import opened RefreshInvariant
  import opened RefreshSteps
  import DeviceFlow

  // ---------------------------------------------------------------- the rejected token

  ghost predicate Ended(w: World, p: nat, j: nat, token: string) {
    && p in w.clients && j in w.clients[p].callers
    && w.clients[p].callers[j].pc.Finished? && w.clients[p].callers[j].pc.result == Ok(token)
  }

  ghost predicate Asks(w: World, p: nat, j: nat, rejected: string) {
    && p in w.clients && j in w.clients[p].callers
    && w.clients[p].callers[j].req == Request(true, rejected)
    && w.clients[p].callers[j].rejectedAt.Some?
  }

  ghost predicate SameCaller(c: Client, next: Option<Client>, j: nat) {
    j in c.callers && next.Some? ==>
      && j in next.value.callers && next.value.callers[j].req == c.callers[j].req
      && next.value.callers[j].rejectedAt == c.callers[j].rejectedAt
  }

  lemma CallersStay(hist: Hist, c: Client, step: Local, j: nat)
    requires |hist| > 0
    ensures SameCaller(c, LocalStep(hist, c, step), j)
  {
    match step
    case Begin(i, req) => assert SameCaller(c, BeginStep(hist, c, i, req), j);
    case GiveUp(i) => assert SameCaller(c, GiveUpStep(c, i), j);
    case FirstLook(i) => assert SameCaller(c, FirstLookStep(c, i), j);
    case TakeGate(i) => assert SameCaller(c, TakeGateStep(c, i), j);
    case SecondLook(i) => assert SameCaller(c, SecondLookStep(c, i), j);
    case LoadStored(i, ok) => assert SameCaller(c, LoadStep(hist, c, i, ok), j);
    case _ => LaterCallersStay(hist, c, step, j);
  }

  lemma LaterCallersStay(hist: Hist, c: Client, step: Local, j: nat)
    requires |hist| > 0
    requires !step.Begin? && !step.GiveUp? && !step.FirstLook? && !step.TakeGate? && !step.SecondLook? && !step.LoadStored?
    ensures SameCaller(c, LocalStep(hist, c, step), j)
  {
    match step
    case ThirdLook(i, now, id) => assert SameCaller(c, ThirdLookStep(c, i, now, id), j);
    case Release(i) => assert SameCaller(c, ReleaseStep(c, i), j);
    case Launch(i) => assert SameCaller(c, LaunchStep(c, i), j);
    case Collect(i) => assert SameCaller(c, CollectStep(c, i), j);
    case Leave(i) => assert SameCaller(c, LeaveStep(c, i), j);
    case _ =>
  }

  lemma AsksStays(w: World, l: Label, p: nat, j: nat, rejected: string)
    requires Asks(w, p, j, rejected) && Apply(w, l).Some?
    ensures Asks(Apply(w, l).value, p, j, rejected)
  {
    if l.Inside? && l.client == p {
      CallersStay(w.hist, w.clients[p], l.step, j);
    }
  }

  lemma {:induction false} AsksThroughout(w: World, steps: seq<Label>, p: nat, j: nat, rejected: string)
    requires Asks(w, p, j, rejected) && Run(w, steps).Some?
    ensures Asks(Run(w, steps).value, p, j, rejected)
    decreases |steps|
  {
    if steps != [] {
      AsksStays(w, steps[0], p, j, rejected);
      AsksThroughout(Apply(w, steps[0]).value, steps[1..], p, j, rejected);
    }
  }

  /** Caller `i` of a client got the token `r`; the API refused it; caller `j` of the same client asks
      for another one. Whatever everybody does before and after, `j` does not get `r` again, even
      when it joins a refresh that was running already. */
  lemma RejectedTokenIsNotServedAgain(
    w0: World, before: seq<Label>, w1: World, p: nat, i: nat, r: string,
    j: nat, after: seq<Label>, w2: World, t: string)
    requires Init(w0) && Run(w0, before) == Some(w1)
    requires Ended(w1, p, i, r)
    requires Run(w1, [Inside(p, Begin(j, Request(true, r)))] + after) == Some(w2)
    requires Ended(w2, p, j, t)
    ensures t != r
  {
    InitInv(w0);
    RunKeeps(w0, before);
    var steps := [Inside(p, Begin(j, Request(true, r)))] + after;
    assert steps[1..] == after;
    BeginAsks(w1, p, i, r, j);
    AsksThroughout(Apply(w1, steps[0]).value, after, p, j, r);
    RunKeeps(w1, steps);
    EndedDiffers(w2, p, j, r, t);
  }

  lemma BeginAsks(w: World, p: nat, i: nat, r: string, j: nat)
    requires Inv(w) && Ended(w, p, i, r) && Apply(w, Inside(p, Begin(j, Request(true, r)))).Some?
    ensures Asks(Apply(w, Inside(p, Begin(j, Request(true, r)))).value, p, j, r)
    ensures r != ""
  {
    assert CallerOk(w.hist, w.clients[p], i, w.clients[p].callers[i]);
  }

  lemma EndedDiffers(w: World, p: nat, j: nat, r: string, t: string)
    requires Inv(w) && Asks(w, p, j, r) && Ended(w, p, j, t) && r != ""
    ensures t != r
  {
    assert CallerOk(w.hist, w.clients[p], j, w.clients[p].callers[j]);
  }

  // ---------------------------------------------------------------- chain of sessions

  /** A session that a refresh wrote was obtained with the refresh token of exactly the session it replaced. */
  lemma ChainOfSessions(w: World, i: nat)
    requires Reachable(w) && i < |w.hist| && w.hist[i].Some?
    ensures w.hist[i].value in w.issued
    ensures w.issued[w.hist[i].value].Exchanged? ==>
              i > 0 && w.hist[i - 1].Some? && w.hist[i - 1].value.refresh == w.issued[w.hist[i].value].sent
    ensures forall j :: 0 <= j < |w.hist| && j != i && w.hist[j].Some? ==>
              w.hist[j].value.access != w.hist[i].value.access && w.hist[j].value.refresh != w.hist[i].value.refresh
  {
    ReachableInv(w);
    assert Linked(w, i);
    forall j | 0 <= j < |w.hist| && j != i && w.hist[j].Some?
      ensures w.hist[j].value.access != w.hist[i].value.access && w.hist[j].value.refresh != w.hist[i].value.refresh
    {
      VersionsDiffer(w, i, j);
    }
  }

  /** A commit writes exactly when no login, no sign-out and no other client's rotation happened
      since its source was loaded. Otherwise the store keeps what it has, a cleared one included. */
  lemma CommitWritesExactlyOverItsSource(w: World, p: nat, k: nat, fault: Fault)
    requires Reachable(w) && |w.hist| > 0 && CommitStep(w, p, k, fault).Some?
    ensures var call := w.clients[p].calls[k];
            var w' := CommitStep(w, p, k, fault).value;
            && call.at < |w.hist|
            && w'.hist == if call.at == |w.hist| - 1 && !fault.Lost? then w.hist + [Some(call.worker.refreshed)] else w.hist
  {
    ReachableInv(w);
    var c := w.clients[p];
    var call := c.calls[k];
    assert CallOk(w.hist, w.issued, p, c, k, call);
    if Stored(w) == Some(call.source) { SameSessionSameVersion(w, call.at, |w.hist| - 1); }
  }

  // ---------------------------------------------------------------- single use, single flight

  /** Once a client's refresh replaced version i-1, no later request of that client sends the
      refresh token of version i-1. */
  lemma CommittedSourceIsNotSentAgain(w: World, p: nat, k: nat, i: nat, earlier: nat, sent: string)
    requires Reachable(w) && p in w.clients && SendStep(w.clients[p], k).Some?
    requires 0 < i < |w.hist| && w.hist[i].Some?
    requires w.hist[i].value in w.issued && w.issued[w.hist[i].value] == Exchanged(p, earlier, sent)
    ensures w.hist[i - 1].Some? && w.clients[p].calls[k].source.refresh != w.hist[i - 1].value.refresh
  {
    ReachableInv(w);
    var c := w.clients[p];
    assert Linked(w, i);
    assert CallOk(w.hist, w.issued, p, c, k, c.calls[k]);
    assert CallOk(w.hist, w.issued, p, c, earlier, c.calls[earlier]);
    var at := c.calls[k].at;
    assert i < c.horizon <= at + 1;
    VersionsDiffer(w, at, i - 1);
  }

  /** At most one refresh of a client is unfinished, it is the one in flight, `waiters` is the
      number of callers that joined it and have not left, and a caller about to decide sees none. */
  lemma SingleFlight(w: World, p: nat)
    requires Reachable(w) && p in w.clients
    ensures var c := w.clients[p];
      && (forall k1 <- c.calls, k2 <- c.calls ::
            !c.calls[k1].worker.Done? && !c.calls[k2].worker.Done? ==> k1 == k2)
      && (forall k <- c.calls :: !c.calls[k].worker.Done? <==> c.inflight == Some(k))
      && (forall k <- c.calls :: !c.calls[k].worker.Done? ==> c.calls[k].waiters == |Waiters(c, k)|)
      && (forall j <- c.callers :: c.callers[j].pc.Deciding? ==> c.gate == Some(j) && c.inflight.None?)
  {
    ReachableInv(w);
    var c := w.clients[p];
    forall k <- c.calls ensures c.calls[k].worker.Done? || c.inflight == Some(k) {
      assert CallOk(w.hist, w.issued, p, c, k, c.calls[k]);
    }
    forall j <- c.callers | c.callers[j].pc.Deciding? ensures c.gate == Some(j) && c.inflight.None? {
      assert CallerOk(w.hist, c, j, c.callers[j]);
    }
  }

  /** Every token handed out was the stored session at some instant: for a direct answer between
      the caller's start and now, for a shared one after the call's source was loaded and before
      `done` was closed. */
  lemma ResultsWereStored(w: World, p: nat, j: nat, t: string)
    requires Reachable(w) && Ended(w, p, j, t)
    ensures var c := w.clients[p]; var Finished(_, at, via) := c.callers[j].pc;
      && at < |w.hist| && w.hist[at].Some? && w.hist[at].value.access == t
      && (via.None? ==> c.callers[j].born <= at)
      && (via.Some? ==> via.value in c.calls && c.calls[via.value].worker.Done?
                        && c.calls[via.value].at < at < c.calls[via.value].worker.closed <= |w.hist|)
  {
    ReachableInv(w);
    var c := w.clients[p];
    assert CallerOk(w.hist, c, j, c.callers[j]);
    var via := c.callers[j].pc.via;
    if via.Some? { assert CallOk(w.hist, w.issued, p, c, via.value, c.calls[via.value]); }
  }

  /** All waiters of one call that stayed for its result got the same result. */
  lemma WaitersShareTheResult(w: World, p: nat, i: nat, j: nat)
    requires Reachable(w) && p in w.clients && i in w.clients[p].callers && j in w.clients[p].callers
    requires var a, b := w.clients[p].callers[i].pc, w.clients[p].callers[j].pc;
             && a.Finished? && b.Finished? && a.via.Some? && a.via == b.via
             && a.result != Err(Cancelled) && b.result != Err(Cancelled)
    ensures w.clients[p].callers[i].pc == w.clients[p].callers[j].pc
  {
    ReachableInv(w);
    var c := w.clients[p];
    assert CallerOk(w.hist, c, i, c.callers[i]);
    assert CallerOk(w.hist, c, j, c.callers[j]);
  }

  /** A waiter that is cancelled takes nothing from the others: no call's worker and not the call in
      flight change, nor any other caller, and a rotation the server granted is stored over its source as before. */
  lemma CancelledWaiterLeavesTheWorkAlone(w: World, p: nat, c': Client, j: nat)
    requires Reachable(w) && |w.hist| > 0 && p in w.clients && LeaveStep(w.clients[p], j) == Some(c')
    ensures Apply(w, Inside(p, Leave(j))) == Some(w.(clients := w.clients[p := c']))
    ensures c'.inflight == w.clients[p].inflight && c'.calls.Keys == w.clients[p].calls.Keys
    ensures forall k <- c'.calls :: c'.calls[k] == w.clients[p].calls[k].(waiters := c'.calls[k].waiters)
    ensures forall i <- w.clients[p].callers :: i != j ==> i in c'.callers && c'.callers[i] == w.clients[p].callers[i]
    ensures forall k <- c'.calls, fault :: c'.calls[k].worker.Granted? ==> SameCommit(w, p, c', k, fault)
  {
    forall k <- c'.calls, fault | c'.calls[k].worker.Granted? ensures SameCommit(w, p, c', k, fault) {
      CommitWritesExactlyOverItsSource(w, p, k, fault);
    }
  }

  /** The commit of call `k` stores the same whether or not the client goes on as `c'`. */
  ghost predicate SameCommit(w: World, p: nat, c': Client, k: nat, fault: Fault)
    requires |w.hist| > 0 && p in w.clients
  {
    var committed := CommitStep(w.(clients := w.clients[p := c']), p, k, fault);
    && committed.Some? && CommitStep(w, p, k, fault).Some?
    && committed.value.hist == CommitStep(w, p, k, fault).value.hist
    && (w.clients[p].calls[k].at == |w.hist| - 1 && !fault.Lost? ==>
          Stored(committed.value) == Some(w.clients[p].calls[k].worker.refreshed))
  }

  predicate Wanted(stored: AuthTokens, req: Request, now: int) {
    if req.force then req.rejected in ["", stored.access] else NeedsRefresh(stored, now)
  }

  /** The third critical section creates a call exactly for a stored session whose token is due, or
      was rejected while that session was still the one loaded. For a token this client handed out,
      that means: exactly when the version it came from is the one loaded, so that the delayed
      rejection of an older version never rotates a newer one. */
  lemma RotatesExactlyWhenNeeded(w: World, p: nat, j: nat, now: int, id: nat, c': Client)
    requires Reachable(w) && p in w.clients && ThirdLookStep(w.clients[p], j, now, id) == Some(c')
    ensures var c := w.clients[p];
            var Caller(req, _, rejectedAt, Deciding(_, at)) := c.callers[j];
      && c.inflight.None? && at < |w.hist|
      && (id in c'.calls <==> w.hist[at].Some? && Wanted(w.hist[at].value, req, now))
      && (req.force && rejectedAt.Some? ==> (id in c'.calls <==> rejectedAt.value == at))
      && (id in c'.calls ==> c'.inflight == Some(id) && c'.calls[id].source == w.hist[at].value)
      && (id !in c'.calls ==>
            && c'.calls == c.calls && c'.inflight.None?
            && c'.callers[j].pc.after.result
               == if w.hist[at].Some? then Ok(w.hist[at].value.access) else Err(NotAuthenticated))
  {
    ReachableInv(w);
    var c := w.clients[p];
    var me := c.callers[j];
    assert CallerOk(w.hist, c, j, me);
    if me.rejectedAt.Some? && w.hist[me.pc.at].Some? && me.rejectedAt.value != me.pc.at {
      VersionsDiffer(w, me.rejectedAt.value, me.pc.at);
    }
  }

  // ---------------------------------------------------------------- what a finished refresh hands out

  /** A commit that is not disturbed by a fault serves what the store holds then: the refreshed session
      if its source was still there, the session somebody else stored in the meantime otherwise, and an
      error only over a store that was cleared. A fault is always an error. */
  lemma CommitServesWhatIsStored(w: World, p: nat, k: nat, fault: Fault)
    requires Reachable(w) && |w.hist| > 0 && CommitStep(w, p, k, fault).Some?
    ensures var call := w.clients[p].calls[k];
            var w' := CommitStep(w, p, k, fault).value;
            var worker := w'.clients[p].calls[k].worker;
      && worker.Finishing?
      && (fault.Clean? ==>
            && worker.result == (if Stored(w').Some? then Ok(Stored(w').value) else Err(NotAuthenticated))
            && (call.at == |w.hist| - 1 ==> worker.result == Ok(call.worker.refreshed)))
      && (!fault.Clean? ==> worker.result.Err?)
  {
    SourceIsStoredExactly(w, p, k);
    assert CommitStep(w, p, k, fault).value.clients[p].calls[k].worker
        == Swap(w, w.clients[p].calls[k].source, w.clients[p].calls[k].worker.refreshed, fault).1;
  }

  /** The source of a call is what the store holds exactly if nothing was stored or cleared since. */
  lemma SourceIsStoredExactly(w: World, p: nat, k: nat)
    requires Reachable(w) && |w.hist| > 0 && p in w.clients && k in w.clients[p].calls
    ensures var call := w.clients[p].calls[k];
      && call.at < |w.hist| && (Stored(w) == Some(call.source) <==> call.at == |w.hist| - 1)
      && (Stored(w).Some? ==> Stored(w).value.access != "")
  {
    ReachableInv(w);
    var c := w.clients[p];
    assert CallOk(w.hist, w.issued, p, c, k, c.calls[k]);
    if Stored(w) == Some(c.calls[k].source) { SameSessionSameVersion(w, c.calls[k].at, |w.hist| - 1); }
  }

  /** A refresh that failed serves the stored session exactly if somebody stored it after the source. */
  lemma FailureServesANewerSession(w: World, p: nat, k: nat, ok: bool)
    requires Reachable(w) && |w.hist| > 0 && p in w.clients && ReloadStep(w.hist, w.clients[p], k, ok).Some?
    ensures var call := w.clients[p].calls[k];
            ReloadStep(w.hist, w.clients[p], k, ok).value.calls[k].worker.result
            == if ok && Stored(w).Some? && call.at < |w.hist| - 1 then Ok(Stored(w).value) else Err(Network)
  {
    SourceIsStoredExactly(w, p, k);
  }

  /** Once the worker published its result, every waiter that collects gets exactly that. */
  lemma WaitersGetTheResult(w: World, p: nat, k: nat, j: nat)
    requires Reachable(w) && |w.hist| > 0 && p in w.clients && k in w.clients[p].calls
    requires w.clients[p].calls[k].worker.Finishing? && j in Waiters(w.clients[p], k) && w.clients[p].callers[j].pc.Waiting?
    ensures var Finishing(result, at) := w.clients[p].calls[k].worker;
            var done := FinishStep(w.hist, w.clients[p], k);
      && done.Some? && CollectStep(done.value, j).Some?
      && CollectStep(done.value, j).value.callers[j].pc
         == Finished(if result.Ok? then Ok(result.value.access) else Err(result.error), at, Some(k))
  {
    ReachableInv(w);
    var c := w.clients[p];
    assert CallOk(w.hist, w.issued, p, c, k, c.calls[k]);
  }

  /** A caller whose context ends can leave before it decides, and while it waits for an unfinished
      call. It gets that as its error, and nothing is stored or handed out for it. A finished call is
      collected instead. */
  lemma CancelledCallersAreTold(w: World, p: nat, j: nat)
    requires Reachable(w) && |w.hist| > 0 && p in w.clients && j in w.clients[p].callers
    ensures var c := w.clients[p];
            var pc := c.callers[j].pc;
      && (pc.Started? || pc.WantGate? ==> ToldCancelled(c, GiveUpStep(c, j), j))
      && (pc.Waiting? ==>
            && pc.call in c.calls
            && if c.calls[pc.call].worker.Done? then CollectStep(c, j).Some? && LeaveStep(c, j).None?
               else ToldCancelled(c, LeaveStep(c, j), j))
  {
    ReachableInv(w);
    assert CallerOk(w.hist, w.clients[p], j, w.clients[p].callers[j]);
  }

  ghost predicate ToldCancelled(c: Client, next: Option<Client>, j: nat) {
    && next.Some? && j in next.value.callers && next.value.callers[j].pc.Finished?
    && next.value.callers[j].pc.result == Err(Cancelled)
    && next.value.returned == c.returned && next.value.inflight == c.inflight
  }

  /** The worker follows the server: usable new credentials are committed, and over an undisturbed
      source they are what the store then holds and every waiter is offered; unusable ones are an
      error; after a refusal the store is looked at once more. */
  lemma WorkerFollowsTheServer(w: World, p: nat, k: nat, a: AuthTokens)
    requires Reachable(w) && |w.hist| > 0 && p in w.clients && k in w.clients[p].calls
    requires w.clients[p].calls[k].worker.Asked? && Fresh(w, a)
    ensures var granted := Apply(w, Grant(p, k, a));
      && granted.Some? && granted.value.clients[p].calls[k].worker == Granted(a)
      && var committed := CommitStep(granted.value, p, k, Clean);
      && committed.Some?
      && (w.clients[p].calls[k].at == |w.hist| - 1 ==>
            && Stored(committed.value) == Some(a)
            && committed.value.clients[p].calls[k].worker == Finishing(Ok(a), |w.hist|))
    ensures var c := w.clients[p];
      && RejectStep(c, k) == Some(Work(c, k, Finishing(Err(Malformed), 0)))
      && DenyStep(c, k) == Some(Work(c, k, Denied))
  {
    SourceIsStoredExactly(w, p, k);
    assert Apply(w, Grant(p, k, a)) == GrantStep(w, p, k, a);
  }

  /** A launched worker asks the server with the refresh token of its source. */
  lemma WorkerAsks(w: World, p: nat, k: nat)
    requires Reachable(w) && p in w.clients && k in w.clients[p].calls && w.clients[p].calls[k].worker.Ready?
    ensures var asked := Apply(w, Inside(p, Send(k)));
      && asked.Some?
      && asked.value.clients[p].calls[k] == w.clients[p].calls[k].(worker := Asked)
  {
    ReachableInv(w);
  }

  /** A caller that finds a call in flight, at its first look or with the gate held, joins it. */
  lemma LooksJoinTheCallInFlight(w: World, p: nat, j: nat, k: nat)
    requires Reachable(w) && |w.hist| > 0 && p in w.clients && j in w.clients[p].callers && w.clients[p].inflight == Some(k)
    requires w.clients[p].callers[j].pc.Started? || w.clients[p].callers[j].pc.Holding?
    ensures var c := w.clients[p];
            var look := if c.callers[j].pc.Started? then FirstLookStep(c, j) else SecondLookStep(c, j);
      && look.Some? && On(look.value.callers[j].pc) == Some(k)
      && look.value.calls[k] == c.calls[k].(waiters := c.calls[k].waiters + 1)
  {
    ReachableInv(w);
  }

  // ---------------------------------------------------------------- the commit is a transaction

  /** `Swap` is what running `RefreshUpdate` as a storage transaction does to the session field;
      the pending flow and its generation are left alone. */
  lemma SwapIsATransaction(w: World, s: State, source: AuthTokens, refreshed: AuthTokens, now: int64)
    requires |w.hist| > 0 && s.auth == Stored(w) && Prepared(s)
    requires ValidAuth(refreshed) && refreshed.expiresAt > 0
    ensures var o := Transact(s, RefreshUpdate(source, refreshed), false, now);
            var (hist, worker) := Swap(w, source, refreshed, Clean);
            && o.state == s.(auth := hist[|hist| - 1])
            && worker.Finishing? && worker.result == o.result
  {
    var u := RefreshUpdate(source, refreshed);
    if u(s).Ok? { TransactStores(s, u, now); }
  }

  /** The device machine's rotation is this commit too: it is possible over every stored session, and
      leaves the pending flow and the generation alone. */
  lemma RotationIsACommit(w: DeviceFlow.World, source: AuthTokens, refreshed: AuthTokens, now: int64)
    requires Prepared(w.state) && w.state.auth == Some(source) && DeviceFlow.Fresh(w, refreshed)
    ensures var rotated := DeviceFlow.Apply(w, DeviceFlow.Rotate(refreshed));
      && rotated.Some?
      && Outcome(rotated.value.state, Ok(refreshed)) == Transact(w.state, RefreshUpdate(source, refreshed), false, now)
  {
    TransactStores(w.state, RefreshUpdate(source, refreshed), now);
  }

  /** A file may hold a session without an expiry; the next successful transaction of anybody fills
      it in, even one that leaves the session alone. A refresh of that session started before then
      takes the filled session for a newer one: it discards what the server granted and serves the
      old token. With an expiry in place no such transaction is an obstacle. */
  lemma MissingExpiryUndoesARefresh<R>(s: State, source: AuthTokens, refreshed: AuthTokens, u: Update<R>, now: int64, later: int64)
    requires s.auth == Some(source) && ValidAuth(source)
    requires ValidAuth(refreshed) && refreshed.expiresAt > 0 && refreshed.access != source.access
    requires u(s).Ok? && u(s).value.0.auth == s.auth && Transact(s, u, false, now).result.Ok?
    ensures var between := Transact(s, u, false, now).state;
            var o := Transact(between, RefreshUpdate(source, refreshed), false, later);
            && o.result.Ok?
            && (o.result.value == refreshed <==> source.expiresAt > 0)
            && (source.expiresAt > 0 ==> o.state == between.(auth := Some(refreshed)))
            && (source.expiresAt == 0 ==> o.result.value.access == source.access && o.state == between)
  {
    if source.expiresAt == 0 { PrepareAuthExact(source, now); }
    var between := Transact(s, u, false, now).state;
    TransactStores(between, RefreshUpdate(source, refreshed), later);
  }

  // ---------------------------------------------------------------- why the token must be the client's own

  /** `RejectedTokenIsNotServedAgain` needs its hypothesis that the token came from this client (the
      SDK's own requests always satisfy it). For any other token a caller may join a refresh of the
      previous session, which fails and serves what is stored now: that very token. */
  lemma ForeignTokenCanBeServedAgain(s: AuthTokens, t: AuthTokens)
    requires ValidAuth(s) && s.expiresAt > 0 && ValidAuth(t) && t.expiresAt > 0
    requires s.access != t.access && s.refresh != t.refresh
    ensures exists w: World ::
              && Reachable(w) && 0 in w.clients && 1 in w.clients[0].callers
              && w.clients[0].callers[1].req == Request(true, t.access)
              && Ended(w, 0, 1, t.access)
  {
    var c := SceneRefreshing(s);
    c := SceneJoined(s, t, c);
    c := SceneServed(s, t, c);
    c := Inner([Some(s), Some(t)], map[s := Login, t := Login], c, Collect(1));
  }

  /** A caller whose token was refused has the gate. */
  lemma SceneHolding(s: AuthTokens) returns (c: Client)
    requires ValidAuth(s) && s.expiresAt > 0
    ensures Reachable(World([Some(s)], map[s := Login], map[0 := c]))
    ensures c == Client(Some(0), None, map[], map[0 := Caller(Request(true, s.access), 0, None, Holding)], 0, map[])
  {
    var hist, issued := [Some(s)], map[s := Login];
    StartReachable(World(hist, issued, map[0 := IDLE]));
    c := Inner(hist, issued, IDLE, Begin(0, Request(true, s.access)));
    c := Inner(hist, issued, c, FirstLook(0));
    c := Inner(hist, issued, c, TakeGate(0));
  }

  /** It is about to decide. */
  lemma SceneDeciding(s: AuthTokens) returns (c: Client)
    requires ValidAuth(s) && s.expiresAt > 0
    ensures Reachable(World([Some(s)], map[s := Login], map[0 := c]))
    ensures c == Client(Some(0), None, map[], map[0 := Caller(Request(true, s.access), 0, None, Deciding(Some(s), 0))], 0, map[])
  {
    var hist, issued := [Some(s)], map[s := Login];
    c := SceneHolding(s);
    c := Inner(hist, issued, c, SecondLook(0));
    c := Inner(hist, issued, c, LoadStored(0, true));
  }

  /** It starts a call. */
  lemma SceneStarting(s: AuthTokens) returns (c: Client)
    requires ValidAuth(s) && s.expiresAt > 0
    ensures Reachable(World([Some(s)], map[s := Login], map[0 := c]))
    ensures c == Client(Some(0), Some(0), map[0 := Call(s, 0, 1, Unlaunched, 0)],
                        map[0 := Caller(Request(true, s.access), 0, None, Releasing(Lead(0)))], 0, map[])
  {
    c := SceneDeciding(s);
    c := Inner([Some(s)], map[s := Login], c, ThirdLook(0, 0, 0));
  }

  /** The refresh of `s` is under way. */
  lemma SceneRefreshing(s: AuthTokens) returns (c: Client)
    requires ValidAuth(s) && s.expiresAt > 0
    ensures Reachable(World([Some(s)], map[s := Login], map[0 := c]))
    ensures c == Client(None, Some(0), map[0 := Call(s, 0, 1, Ready, 0)],
                        map[0 := Caller(Request(true, s.access), 0, None, Waiting(0))], 0, map[])
  {
    var hist, issued := [Some(s)], map[s := Login];
    c := SceneStarting(s);
    c := Inner(hist, issued, c, Release(0));
    c := Inner(hist, issued, c, Launch(0));
  }

  /** A refresh can succeed: over any stored session a forced call ends with the new token, which is
      then what the store holds. */
  lemma RefreshCanSucceed(s: AuthTokens, a: AuthTokens)
    requires ValidAuth(s) && s.expiresAt > 0 && ValidAuth(a) && a.expiresAt > 0
    requires s.access != a.access && s.refresh != a.refresh
    ensures exists w: World :: Reachable(w) && Ended(w, 0, 0, a.access) && Stored(w) == Some(a)
  {
    var c := SceneRefreshing(s);
    c := SceneCommitted(s, a, c);
    var hist, issued := [Some(s), Some(a)], map[s := Login, a := Exchanged(0, 0, s.refresh)];
    c := Inner(hist, issued, c, Finish(0));
    c := Inner(hist, issued, c, Collect(0));
  }

  /** The worker asks, the server grants `a`, and `a` replaces `s`. */
  lemma SceneCommitted(s: AuthTokens, a: AuthTokens, before: Client) returns (c: Client)
    requires ValidAuth(s) && s.expiresAt > 0 && ValidAuth(a) && a.expiresAt > 0
    requires s.access != a.access && s.refresh != a.refresh
    requires Reachable(World([Some(s)], map[s := Login], map[0 := before]))
    requires before == Client(None, Some(0), map[0 := Call(s, 0, 1, Ready, 0)],
                              map[0 := Caller(Request(true, s.access), 0, None, Waiting(0))], 0, map[])
    ensures Reachable(World([Some(s), Some(a)], map[s := Login, a := Exchanged(0, 0, s.refresh)], map[0 := c]))
    ensures c == before.(calls := map[0 := Call(s, 0, 1, Finishing(Ok(a), 1), 0)])
  {
    c := Inner([Some(s)], map[s := Login], before, Send(0));
    var w := World([Some(s)], map[s := Login], map[0 := c]);
    w := Then(w, Grant(0, 0, a));
    w := Then(w, Commit(0, 0, Clean));
    c := w.clients[0];
    assert w == World([Some(s), Some(a)], map[s := Login, a := Exchanged(0, 0, s.refresh)], map[0 := c]);
  }

  /** A login elsewhere stores `t`; a caller refused with `t` joins the refresh of `s`. */
  lemma SceneJoined(s: AuthTokens, t: AuthTokens, before: Client) returns (c: Client)
    requires ValidAuth(t) && t.expiresAt > 0 && s.access != t.access && s.refresh != t.refresh
    requires Reachable(World([Some(s)], map[s := Login], map[0 := before]))
    requires before.calls == map[0 := Call(s, 0, 1, Ready, 0)] && before.inflight == Some(0)
    requires before.callers.Keys == {0} && before.returned == map[]
    ensures Reachable(World([Some(s), Some(t)], map[s := Login, t := Login], map[0 := c]))
    ensures c.calls == map[0 := Call(s, 0, 2, Ready, 0)] && c.inflight == Some(0)
    ensures 1 in c.callers && c.callers[1] == Caller(Request(true, t.access), 1, None, Waiting(0))
  {
    var hist, issued := [Some(s), Some(t)], map[s := Login, t := Login];
    var w := Then(World([Some(s)], map[s := Login], map[0 := before]), SignIn(t));
    assert w == World(hist, issued, map[0 := before]);
    c := Inner(hist, issued, before, Begin(1, Request(true, t.access)));
    c := Inner(hist, issued, c, FirstLook(1));
  }

  /** The refresh fails, and the worker finds the session that is stored now. */
  lemma SceneReloaded(s: AuthTokens, t: AuthTokens, before: Client) returns (c: Client)
    requires s != t && t.access != ""
    requires Reachable(World([Some(s), Some(t)], map[s := Login, t := Login], map[0 := before]))
    requires before.calls == map[0 := Call(s, 0, 2, Ready, 0)]
    ensures Reachable(World([Some(s), Some(t)], map[s := Login, t := Login], map[0 := c]))
    ensures c == before.(calls := map[0 := Call(s, 0, 2, Finishing(Ok(t), 1), 0)])
  {
    var hist, issued := [Some(s), Some(t)], map[s := Login, t := Login];
    c := Inner(hist, issued, before, Deny(0));
    c := Inner(hist, issued, c, Reload(0, true));
  }

  /** That session is served to everyone who waits. */
  lemma SceneServed(s: AuthTokens, t: AuthTokens, before: Client) returns (c: Client)
    requires s != t && t.access != ""
    requires Reachable(World([Some(s), Some(t)], map[s := Login, t := Login], map[0 := before]))
    requires before.calls == map[0 := Call(s, 0, 2, Ready, 0)]
    ensures Reachable(World([Some(s), Some(t)], map[s := Login, t := Login], map[0 := c]))
    ensures c.callers == before.callers && c.calls == map[0 := Call(s, 0, 2, Done(Ok(t), 1, 2), 0)]
  {
    c := SceneReloaded(s, t, before);
    c := Inner([Some(s), Some(t)], map[s := Login, t := Login], c, Finish(0));
  }

  /** One more step of the only client. */
  lemma Inner(hist: Hist, issued: Issued, c: Client, step: Local) returns (c': Client)
    requires |hist| > 0 && Reachable(World(hist, issued, map[0 := c])) && LocalStep(hist, c, step).Some?
    ensures LocalStep(hist, c, step) == Some(c') && Reachable(World(hist, issued, map[0 := c']))
  {
    c' := LocalStep(hist, c, step).value;
    var w := World(hist, issued, map[0 := c]);
    var w' := Then(w, Inside(0, step));
    assert w' == World(hist, issued, map[0 := c']);
  }

  lemma StartReachable(w: World)
    requires Init(w)
    ensures Reachable(w)
  {
    assert Run(w, []) == Some(w);
  }

  lemma Then(w: World, l: Label) returns (w': World)
    requires Reachable(w) && Apply(w, l).Some?
    ensures Reachable(w') && w' == Apply(w, l).value
  {
    var w0: World, steps: seq<Label> :| Init(w0) && Run(w0, steps) == Some(w);
    w' := Apply(w, l).value;
    RunThen(w0, steps, l);
  }
}
