/** Every step of the refresh machine keeps its invariant. */
module RefreshSteps {
  import opened Session
  import opened Refresh
  import opened RefreshInvariant

  type Hist = seq<Option<AuthTokens>>
  type Issued = map<AuthTokens, Origin>

  /** What the history relies on: calls only move forward. */
  ghost predicate Forward(c: Client, c': Client, n: nat) {
    && c.horizon <= c'.horizon <= n
    && forall k <- c.calls ::
         && k in c'.calls && c'.calls[k].source == c.calls[k].source
         && (c.calls[k].worker.Finishing? ==> c'.calls[k].worker.Finishing? || (c'.calls[k].worker.Done? && c'.horizon == n))
         && (c.calls[k].worker.Done? ==> c'.calls[k].worker.Done?)
  }

  ghost predicate Good(hist: Hist, issued: Issued, p: nat, c: Client) {
    |hist| > 0 && ClientOk(hist, issued, p, c) && Counted(c)
  }

  /** A step that is enabled leads to a good client again. */
  ghost predicate Keeps(hist: Hist, issued: Issued, p: nat, c: Client, next: Option<Client>) {
    next.Some? ==> Good(hist, issued, p, next.value) && Forward(c, next.value, |hist|)
  }

  /** Nothing but one caller's record and the gate moved. */
  ghost predicate OnlyCaller(c: Client, j: nat, c': Client) {
    && j in c'.callers
    && c' == c.(callers := c.callers[j := c'.callers[j]], gate := c'.gate)
    && (c'.gate == c.gate || (c.gate.None? && c'.gate == Some(j)) || (c.gate == Some(j) && c'.gate.None?))
  }

  lemma CallerMoveKeeps(hist: Hist, issued: Issued, p: nat, c: Client, j: nat, c': Client)
    requires ClientOk(hist, issued, p, c) && OnlyCaller(c, j, c')
    requires CallerOk(hist, c', j, c'.callers[j])
    ensures ClientOk(hist, issued, p, c')
  {
    OtherCallers(hist, c, c', j);
    forall k <- c'.calls ensures CallOk(hist, issued, p, c', k, c'.calls[k]) {
      assert CallOk(hist, issued, p, c, k, c.calls[k]);
    }
  }

  lemma CallerMoveCounts(c: Client, j: nat, c': Client)
    requires Counted(c) && OnlyCaller(c, j, c')
    requires On(c'.callers[j].pc) == if j in c.callers then On(c.callers[j].pc) else None
    ensures Counted(c')
  {
    forall k <- c'.calls | !c'.calls[k].worker.Done? ensures c'.calls[k].waiters == |Waiters(c', k)| {
      WaitersMove(c, c', j, k);
    }
  }

  lemma MoveKeeps(hist: Hist, issued: Issued, p: nat, c: Client, j: nat, c': Client)
    requires Good(hist, issued, p, c) && OnlyCaller(c, j, c')
    requires CallerOk(hist, c', j, c'.callers[j])
    requires On(c'.callers[j].pc) == if j in c.callers then On(c.callers[j].pc) else None
    ensures Keeps(hist, issued, p, c, Some(c'))
  {
    CallerMoveKeeps(hist, issued, p, c, j, c');
    CallerMoveCounts(c, j, c');
  }

  lemma BeginKeeps(hist: Hist, issued: Issued, p: nat, c: Client, j: nat, req: Request)
    requires Good(hist, issued, p, c)
    ensures Keeps(hist, issued, p, c, BeginStep(hist, c, j, req))
  {
    if BeginStep(hist, c, j, req).Some? {
      MoveKeeps(hist, issued, p, c, j, BeginStep(hist, c, j, req).value);
    }
  }

  lemma TakeGateKeeps(hist: Hist, issued: Issued, p: nat, c: Client, j: nat)
    requires Good(hist, issued, p, c)
    ensures Keeps(hist, issued, p, c, TakeGateStep(c, j))
  {
    if TakeGateStep(c, j).Some? {
      assert CallerOk(hist, c, j, c.callers[j]);
      MoveKeeps(hist, issued, p, c, j, TakeGateStep(c, j).value);
    }
  }

  lemma LoadKeeps(hist: Hist, issued: Issued, p: nat, c: Client, j: nat, ok: bool)
    requires Good(hist, issued, p, c)
    ensures Keeps(hist, issued, p, c, LoadStep(hist, c, j, ok))
  {
    if LoadStep(hist, c, j, ok).Some? {
      assert CallerOk(hist, c, j, c.callers[j]);
      MoveKeeps(hist, issued, p, c, j, LoadStep(hist, c, j, ok).value);
    }
  }

  // ---------------------------------------------------------------- joining and leaving a call

  /** One call changed its `waiters`, one caller moved. */
  ghost predicate OnlyWaiters(c: Client, j: nat, k: nat, c': Client) {
    && j in c.callers && j in c'.callers && k in c.calls && k in c'.calls
    && c'.calls[k] == c.calls[k].(waiters := c'.calls[k].waiters)
    && c' == c.(callers := c.callers[j := c'.callers[j]], calls := c.calls[k := c'.calls[k]], returned := c'.returned)
  }

  lemma WaitersChangeKeeps(hist: Hist, issued: Issued, p: nat, c: Client, j: nat, k: nat, c': Client)
    requires ClientOk(hist, issued, p, c) && OnlyWaiters(c, j, k, c') && c'.returned == c.returned
    requires CallerOk(hist, c', j, c'.callers[j])
    ensures ClientOk(hist, issued, p, c') && Forward(c, c', |hist|)
  {
    OtherCallers(hist, c, c', j);
    forall i <- c'.calls ensures CallOk(hist, issued, p, c', i, c'.calls[i]) {
      assert CallOk(hist, issued, p, c, i, c.calls[i]);
    }
  }

  lemma WaitersChangeCounts(c: Client, j: nat, k: nat, c': Client)
    requires Counted(c) && OnlyWaiters(c, j, k, c')
    requires forall i <- c'.calls :: !c'.calls[i].worker.Done? ==>
               c'.calls[i].waiters == c.calls[i].waiters
                 - (if On(c.callers[j].pc) == Some(i) then 1 else 0) + (if On(c'.callers[j].pc) == Some(i) then 1 else 0)
    ensures Counted(c')
  {
    forall i <- c'.calls | !c'.calls[i].worker.Done? ensures c'.calls[i].waiters == |Waiters(c', i)| {
      WaitersMove(c, c', j, i);
    }
  }

  lemma JoinKeeps(hist: Hist, issued: Issued, p: nat, c: Client, j: nat, pc: Pc)
    requires Good(hist, issued, p, c) && j in c.callers && c.inflight.Some? && c.inflight.value in c.calls
    requires (c.callers[j].pc.Started? && pc == Waiting(c.inflight.value))
             || (c.callers[j].pc.Holding? && pc == Releasing(Join(c.inflight.value)))
    ensures Keeps(hist, issued, p, c, Some(JoinInflight(c, j, pc)))
  {
    var c', k := JoinInflight(c, j, pc), c.inflight.value;
    assert CallerOk(hist, c, j, c.callers[j]);
    assert CallOk(hist, issued, p, c, k, c.calls[k]);
    WaitersChangeKeeps(hist, issued, p, c, j, k, c');
    WaitersChangeCounts(c, j, k, c');
  }

  lemma FirstLookKeeps(hist: Hist, issued: Issued, p: nat, c: Client, j: nat)
    requires Good(hist, issued, p, c)
    ensures Keeps(hist, issued, p, c, FirstLookStep(c, j))
  {
    if FirstLookStep(c, j).Some? {
      assert CallerOk(hist, c, j, c.callers[j]);
      if c.inflight.Some? {
        JoinKeeps(hist, issued, p, c, j, Waiting(c.inflight.value));
      } else {
        MoveKeeps(hist, issued, p, c, j, FirstLookStep(c, j).value);
      }
    }
  }

  lemma SecondLookKeeps(hist: Hist, issued: Issued, p: nat, c: Client, j: nat)
    requires Good(hist, issued, p, c)
    ensures Keeps(hist, issued, p, c, SecondLookStep(c, j))
  {
    if SecondLookStep(c, j).Some? {
      assert CallerOk(hist, c, j, c.callers[j]);
      if c.inflight.Some? {
        JoinKeeps(hist, issued, p, c, j, Releasing(Join(c.inflight.value)));
      } else {
        MoveKeeps(hist, issued, p, c, j, SecondLookStep(c, j).value);
      }
    }
  }

  /** A caller that still counts among the waiters of an unfinished call is one of them. */
  lemma WaiterCounted(c: Client, j: nat, k: nat)
    requires Counted(c) && j in c.callers && On(c.callers[j].pc) == Some(k) && k in c.calls && !c.calls[k].worker.Done?
    ensures c.calls[k].waiters > 0
  {
    assert j in Waiters(c, k);
  }

  lemma LeaveKeeps(hist: Hist, issued: Issued, p: nat, c: Client, j: nat)
    requires Good(hist, issued, p, c)
    ensures Keeps(hist, issued, p, c, LeaveStep(c, j))
  {
    if LeaveStep(c, j).Some? {
      var c' := LeaveStep(c, j).value;
      var k := c.callers[j].pc.call;
      LeaveActor(hist, c, j);
      WaiterCounted(c, j, k);
      WaitersChangeKeeps(hist, issued, p, c, j, k, c');
      WaitersChangeCounts(c, j, k, c');
    }
  }

  lemma LeaveActor(hist: Hist, c: Client, j: nat)
    requires LeaveStep(c, j).Some? && CallerOk(hist, c, j, c.callers[j])
    ensures var c' := LeaveStep(c, j).value;
      OnlyWaiters(c, j, c.callers[j].pc.call, c') && c'.returned == c.returned && CallerOk(hist, c', j, c'.callers[j])
  {
  }

  // ---------------------------------------------------------------- results

  /** Two versions with one access token are the same version. */
  ghost predicate Distinct(hist: Hist) {
    forall i, j :: 0 <= i < j < |hist| && hist[i].Some? && hist[j].Some? ==> hist[i].value.access != hist[j].value.access
  }

  lemma ConcludeCounts(c: Client, j: nat, open: Client, r: Result<string>, at: nat, via: Option<nat>)
    requires Counted(c) && j in c.callers && open == c.(gate := open.gate)
    requires On(c.callers[j].pc).Some? ==> On(c.callers[j].pc).value in c.calls && c.calls[On(c.callers[j].pc).value].worker.Done?
    ensures Counted(Conclude(open, j, r, at, via))
  {
    var c' := Conclude(open, j, r, at, via);
    forall k <- c'.calls | !c'.calls[k].worker.Done? ensures c'.calls[k].waiters == |Waiters(c', k)| {
      WaitersMove(c, c', j, k);
    }
  }

  lemma ConcludeKeeps(hist: Hist, issued: Issued, p: nat, c: Client, j: nat, open: Client,
                      r: Result<string>, at: nat, via: Option<nat>)
    requires ClientOk(hist, issued, p, c)
    requires j in c.callers && open == c.(gate := open.gate)
    requires open.gate == c.gate || (c.gate == Some(j) && open.gate.None?)
    requires r.Ok? ==> at < c.horizon && hist[at].Some? && hist[at].value.access == r.value
    requires CallerOk(hist, Conclude(open, j, r, at, via), j, Conclude(open, j, r, at, via).callers[j])
    ensures var c' := Conclude(open, j, r, at, via);
            ClientOk(hist, issued, p, c') && Forward(c, c', |hist|)
  {
    var c' := Conclude(open, j, r, at, via);
    OtherCallers(hist, c, c', j);
    OtherCallsSame(hist, issued, p, c, c');
  }

  lemma OtherCallsSame(hist: Hist, issued: Issued, p: nat, c: Client, c': Client)
    requires forall i <- c.calls :: CallOk(hist, issued, p, c, i, c.calls[i])
    requires c'.calls == c.calls && c'.inflight == c.inflight && c'.horizon == c.horizon
    requires forall j <- c.callers :: j in c'.callers
    ensures forall i <- c'.calls :: CallOk(hist, issued, p, c', i, c'.calls[i])
  {
    forall i <- c'.calls ensures CallOk(hist, issued, p, c', i, c'.calls[i]) {
      assert CallOk(hist, issued, p, c, i, c.calls[i]);
    }
  }

  lemma GiveUpKeeps(hist: Hist, issued: Issued, p: nat, c: Client, j: nat)
    requires Good(hist, issued, p, c)
    ensures Keeps(hist, issued, p, c, GiveUpStep(c, j))
  {
    if GiveUpStep(c, j).Some? {
      assert CallerOk(hist, c, j, c.callers[j]);
      ConcludeKeeps(hist, issued, p, c, j, c, Err(Cancelled), 0, None);
      ConcludeCounts(c, j, c, Err(Cancelled), 0, None);
    }
  }

  lemma ReleaseKeeps(hist: Hist, issued: Issued, p: nat, c: Client, j: nat)
    requires Good(hist, issued, p, c)
    ensures Keeps(hist, issued, p, c, ReleaseStep(c, j))
  {
    if ReleaseStep(c, j).Some? {
      if c.callers[j].pc.after.Give? {
        GiveKeeps(hist, issued, p, c, j);
      } else {
        assert CallerOk(hist, c, j, c.callers[j]);
        MoveKeeps(hist, issued, p, c, j, ReleaseStep(c, j).value);
      }
    }
  }

  lemma GiveKeeps(hist: Hist, issued: Issued, p: nat, c: Client, j: nat)
    requires Good(hist, issued, p, c)
    requires j in c.callers && c.callers[j].pc.Releasing? && c.callers[j].pc.after.Give?
    ensures Keeps(hist, issued, p, c, ReleaseStep(c, j))
  {
    var open := c.(gate := None);
    var Give(r, at) := c.callers[j].pc.after;
    assert CallerOk(hist, c, j, c.callers[j]);
    ConcludeKeeps(hist, issued, p, c, j, open, r, at, None);
    ConcludeCounts(c, j, open, r, at, None);
  }

  lemma CollectKeeps(hist: Hist, issued: Issued, p: nat, c: Client, j: nat)
    requires Good(hist, issued, p, c) && Distinct(hist)
    ensures Keeps(hist, issued, p, c, CollectStep(c, j))
  {
    if CollectStep(c, j).Some? {
      var k := c.callers[j].pc.call;
      assert CallerOk(hist, c, j, c.callers[j]);
      assert CallOk(hist, issued, p, c, k, c.calls[k]);
      CollectActor(hist, issued, p, c, j, k);
      var Done(result, at, _) := c.calls[k].worker;
      ConcludeKeeps(hist, issued, p, c, j, c, CallResult(result), at, Some(k));
      ConcludeCounts(c, j, c, CallResult(result), at, Some(k));
    }
  }

  /** The result of a call is a later session than its source, and the rejected token is no later
      than the source: so the two differ, although nobody compared them. */
  lemma CollectActor(hist: Hist, issued: Issued, p: nat, c: Client, j: nat, k: nat)
    requires |hist| > 0 && Distinct(hist)
    requires j in c.callers && c.callers[j].pc == Waiting(k) && CallerOk(hist, c, j, c.callers[j])
    requires k in c.calls && c.calls[k].worker.Done? && CallOk(hist, issued, p, c, k, c.calls[k])
    ensures var c' := Conclude(c, j, CallResult(c.calls[k].worker.result), c.calls[k].worker.at, Some(k));
            CallerOk(hist, c', j, c'.callers[j])
  {
    var me := c.callers[j];
    var Done(result, at, _) := c.calls[k].worker;
    if result.Ok? && me.rejectedAt.Some? {
      assert me.rejectedAt.value <= c.calls[k].at < at;
      assert hist[me.rejectedAt.value].value.access != hist[at].value.access;
    }
  }

  // ---------------------------------------------------------------- the third critical section

  /** The third look never finds a call: a gate holder past the second look sees none in flight. */
  lemma ThirdLookKeeps(hist: Hist, issued: Issued, p: nat, c: Client, j: nat, now: int, id: nat)
    requires Good(hist, issued, p, c)
    ensures Keeps(hist, issued, p, c, ThirdLookStep(c, j, now, id))
  {
    if ThirdLookStep(c, j, now, id).Some? {
      assert CallerOk(hist, c, j, c.callers[j]);
      assert c.horizon <= c.callers[j].pc.at + 1 <= |hist|;
      ThirdLookCounts(hist, c, j, now, id);
      ThirdLookClient(hist, issued, p, c, j, now, id);
    }
  }

  lemma ThirdLookClient(hist: Hist, issued: Issued, p: nat, c: Client, j: nat, now: int, id: nat)
    requires ClientOk(hist, issued, p, c) && j in c.callers && c.callers[j].pc.Deciding? && id !in c.calls
    requires c.inflight.None? && CallerOk(hist, c, j, c.callers[j])
    ensures ClientOk(hist, issued, p, ThirdSection(c, j, now, id))
  {
    ThirdLookOthers(hist, issued, p, c, j, now, id);
    ThirdLookActor(hist, j, c, now, id);
    ThirdLookCall(hist, issued, p, c, j, now, id);
  }

  lemma ThirdLookOthers(hist: Hist, issued: Issued, p: nat, c: Client, j: nat, now: int, id: nat)
    requires ClientOk(hist, issued, p, c) && j in c.callers && c.callers[j].pc.Deciding? && id !in c.calls && c.inflight.None?
    ensures var c' := ThirdSection(c, j, now, id);
            && (forall i <- c'.callers :: i != j ==> CallerOk(hist, c', i, c'.callers[i]))
            && (forall k <- c'.calls :: k != id ==> CallOk(hist, issued, p, c', k, c'.calls[k]))
  {
    assert CallerOk(hist, c, j, c.callers[j]);
    OtherCallers(hist, c, ThirdSection(c, j, now, id), j);
    OtherCalls(hist, issued, p, c, ThirdSection(c, j, now, id), id);
  }

  lemma ThirdLookActor(hist: Hist, j: nat, c: Client, now: int, id: nat)
    requires j in c.callers && c.callers[j].pc.Deciding? && id !in c.calls && CallerOk(hist, c, j, c.callers[j])
    ensures var c' := ThirdSection(c, j, now, id); CallerOk(hist, c', j, c'.callers[j])
  {
    var c' := ThirdSection(c, j, now, id);
    match Decide(c.callers[j].pc.stored, c.callers[j].req, now)
    case Unauthenticated =>
    case Serve(t) => assert ResultOk(hist, c'.callers[j], Ok(t), c.callers[j].pc.at);
    case Rotate(_) =>
  }

  lemma ThirdLookCall(hist: Hist, issued: Issued, p: nat, c: Client, j: nat, now: int, id: nat)
    requires j in c.callers && c.callers[j].pc.Deciding? && id !in c.calls && CallerOk(hist, c, j, c.callers[j])
    requires c.inflight.None?
    ensures var c' := ThirdSection(c, j, now, id); id in c'.calls ==> CallOk(hist, issued, p, c', id, c'.calls[id])
  {
  }

  lemma ThirdLookCounts(hist: Hist, c: Client, j: nat, now: int, id: nat)
    requires j in c.callers && c.callers[j].pc.Deciding? && c.inflight.None? && id !in c.calls && Counted(c)
    requires forall i <- c.callers :: CallerOk(hist, c, i, c.callers[i])
    ensures Counted(ThirdSection(c, j, now, id))
  {
    var c' := ThirdSection(c, j, now, id);
    NobodyOn(hist, c, id);
    forall k <- c'.calls | !c'.calls[k].worker.Done? ensures c'.calls[k].waiters == |Waiters(c', k)| {
      WaitersMove(c, c', j, k);
    }
  }

  lemma NobodyOn(hist: Hist, c: Client, k: nat)
    requires forall j <- c.callers :: CallerOk(hist, c, j, c.callers[j])
    requires k !in c.calls
    ensures Waiters(c, k) == {}
  {
    forall j <- c.callers ensures On(c.callers[j].pc) != Some(k) {
      assert CallerOk(hist, c, j, c.callers[j]);
    }
  }

  // ---------------------------------------------------------------- the worker

  /** One call's worker moved, and at most `inflight` and `horizon` with it. */
  lemma WorkKeeps(hist: Hist, issued: Issued, p: nat, c: Client, k: nat, c': Client)
    requires ClientOk(hist, issued, p, c) && Counted(c)
    requires k in c.calls && k in c'.calls && !c.calls[k].worker.Unlaunched? && !c.calls[k].worker.Done?
    requires c'.calls == c.calls[k := c.calls[k].(worker := c'.calls[k].worker)]
    requires c' == c.(calls := c'.calls, inflight := c'.inflight, horizon := c'.horizon)
    requires (c'.inflight == c.inflight && c'.horizon == c.horizon && !c'.calls[k].worker.Done?)
             || (c'.inflight.None? && c'.horizon == |hist| && c'.calls[k].worker.Done?)
    requires CallOk(hist, issued, p, c', k, c'.calls[k])
    ensures ClientOk(hist, issued, p, c') && Counted(c') && c'.horizon >= c.horizon
  {
    assert CallOk(hist, issued, p, c, k, c.calls[k]);
    forall i <- c'.calls ensures CallOk(hist, issued, p, c', i, c'.calls[i]) {
      assert CallOk(hist, issued, p, c, i, c.calls[i]);
    }
    forall j <- c'.callers ensures CallerOk(hist, c', j, c'.callers[j]) {
      assert CallerOk(hist, c, j, c.callers[j]);
    }
    forall i <- c'.calls | !c'.calls[i].worker.Done? ensures c'.calls[i].waiters == |Waiters(c', i)| {
      assert Waiters(c', i) == Waiters(c, i);
    }
  }

  lemma SendKeeps(hist: Hist, issued: Issued, p: nat, c: Client, k: nat)
    requires Good(hist, issued, p, c)
    ensures Keeps(hist, issued, p, c, SendStep(c, k))
  {
    if SendStep(c, k).Some? {
      assert CallOk(hist, issued, p, c, k, c.calls[k]);
      WorkKeeps(hist, issued, p, c, k, SendStep(c, k).value);
    }
  }

  lemma DenyKeeps(hist: Hist, issued: Issued, p: nat, c: Client, k: nat)
    requires Good(hist, issued, p, c)
    ensures Keeps(hist, issued, p, c, DenyStep(c, k))
  {
    if DenyStep(c, k).Some? {
      assert CallOk(hist, issued, p, c, k, c.calls[k]);
      WorkKeeps(hist, issued, p, c, k, DenyStep(c, k).value);
    }
  }

  lemma RejectKeeps(hist: Hist, issued: Issued, p: nat, c: Client, k: nat)
    requires Good(hist, issued, p, c)
    ensures Keeps(hist, issued, p, c, RejectStep(c, k))
  {
    if RejectStep(c, k).Some? {
      assert CallOk(hist, issued, p, c, k, c.calls[k]);
      WorkKeeps(hist, issued, p, c, k, RejectStep(c, k).value);
    }
  }

  lemma FinishKeeps(hist: Hist, issued: Issued, p: nat, c: Client, k: nat)
    requires Good(hist, issued, p, c)
    ensures Keeps(hist, issued, p, c, FinishStep(hist, c, k))
  {
    if FinishStep(hist, c, k).Some? {
      assert CallOk(hist, issued, p, c, k, c.calls[k]);
      WorkKeeps(hist, issued, p, c, k, FinishStep(hist, c, k).value);
    }
  }

  /** A failed refresh may serve a session another client stored: a later version than the source. */
  lemma ReloadKeeps(hist: Hist, issued: Issued, p: nat, c: Client, k: nat, ok: bool)
    requires Good(hist, issued, p, c)
    ensures Keeps(hist, issued, p, c, ReloadStep(hist, c, k, ok))
  {
    if ReloadStep(hist, c, k, ok).Some? {
      assert CallOk(hist, issued, p, c, k, c.calls[k]);
      assert hist[c.calls[k].at] == Some(c.calls[k].source);
      WorkKeeps(hist, issued, p, c, k, ReloadStep(hist, c, k, ok).value);
    }
  }

  lemma LaunchKeeps(hist: Hist, issued: Issued, p: nat, c: Client, j: nat)
    requires Good(hist, issued, p, c)
    ensures Keeps(hist, issued, p, c, LaunchStep(c, j))
  {
    if LaunchStep(c, j).Some? {
      var c' := LaunchStep(c, j).value;
      var k := c.callers[j].pc.call;
      assert CallerOk(hist, c, j, c.callers[j]);
      LaunchOthers(hist, issued, p, c, j);
      LaunchCounts(c, j);
      assert CallOk(hist, issued, p, c, k, c.calls[k]);
      assert CallOk(hist, issued, p, c', k, c'.calls[k]);
      assert CallerOk(hist, c', j, c'.callers[j]);
    }
  }

  lemma LaunchOthers(hist: Hist, issued: Issued, p: nat, c: Client, j: nat)
    requires ClientOk(hist, issued, p, c) && j in c.callers && c.callers[j].pc.Launching?
    requires c.callers[j].pc.call in c.calls
    ensures var k := c.callers[j].pc.call;
            var c' := Work(Goto(c, j, Waiting(k)), k, Ready);
            && (forall i <- c'.callers :: i != j ==> CallerOk(hist, c', i, c'.callers[i]))
            && (forall i <- c'.calls :: i != k ==> CallOk(hist, issued, p, c', i, c'.calls[i]))
  {
    var k := c.callers[j].pc.call;
    var c' := Work(Goto(c, j, Waiting(k)), k, Ready);
    assert CallerOk(hist, c, j, c.callers[j]);
    OtherCallers(hist, c, c', j);
    OtherCalls(hist, issued, p, c, c', k);
  }

  lemma LaunchCounts(c: Client, j: nat)
    requires Counted(c) && j in c.callers && c.callers[j].pc.Launching? && c.callers[j].pc.call in c.calls
    requires c.calls[c.callers[j].pc.call].worker.Unlaunched?
    ensures var k := c.callers[j].pc.call; Counted(Work(Goto(c, j, Waiting(k)), k, Ready))
  {
    var k := c.callers[j].pc.call;
    var c' := Work(Goto(c, j, Waiting(k)), k, Ready);
    forall i <- c'.calls | !c'.calls[i].worker.Done? ensures c'.calls[i].waiters == |Waiters(c', i)| {
      WaitersMove(c, c', j, i);
    }
  }

  // ---------------------------------------------------------------- all of them

  lemma LocalKeeps(hist: Hist, issued: Issued, p: nat, c: Client, step: Local)
    requires Good(hist, issued, p, c) && Distinct(hist)
    ensures Keeps(hist, issued, p, c, LocalStep(hist, c, step))
  {
    match step
    case Begin(j, req) => BeginKeeps(hist, issued, p, c, j, req);
    case GiveUp(j) => GiveUpKeeps(hist, issued, p, c, j);
    case FirstLook(j) => FirstLookKeeps(hist, issued, p, c, j);
    case TakeGate(j) => TakeGateKeeps(hist, issued, p, c, j);
    case SecondLook(j) => SecondLookKeeps(hist, issued, p, c, j);
    case LoadStored(j, ok) => LoadKeeps(hist, issued, p, c, j, ok);
    case ThirdLook(j, now, id) => ThirdLookKeeps(hist, issued, p, c, j, now, id);
    case Release(j) => ReleaseKeeps(hist, issued, p, c, j);
    case Launch(j) => LaunchKeeps(hist, issued, p, c, j);
    case Collect(j) => CollectKeeps(hist, issued, p, c, j);
    case Leave(j) => LeaveKeeps(hist, issued, p, c, j);
    case Send(k) => SendKeeps(hist, issued, p, c, k);
    case Deny(k) => DenyKeeps(hist, issued, p, c, k);
    case Reject(k) => RejectKeeps(hist, issued, p, c, k);
    case Reload(k, ok) => ReloadKeeps(hist, issued, p, c, k, ok);
    case Finish(k) => FinishKeeps(hist, issued, p, c, k);
  }

  // ---------------------------------------------------------------- the whole world

  /** Linked versions stay linked while clients only move forward and the store only grows. */
  lemma LinksStay(w: World, w': World, p: nat)
    requires HistOk(w) && w.hist <= w'.hist
    requires forall a <- w.issued :: a in w'.issued && w'.issued[a] == w.issued[a]
    requires p in w.clients && p in w'.clients && Forward(w.clients[p], w'.clients[p], |w.hist|)
    requires w'.clients == w.clients[p := w'.clients[p]]
    ensures forall i :: 0 <= i < |w.hist| ==> Linked(w', i)
  {
    forall i | 0 <= i < |w.hist| ensures Linked(w', i) {
      assert Linked(w, i) && w'.hist[i] == w.hist[i];
      if i > 0 { assert w'.hist[i - 1] == w.hist[i - 1]; }
    }
  }

  lemma InvDistinct(w: World)
    requires HistOk(w)
    ensures Distinct(w.hist)
  {
    forall i, j | 0 <= i < j < |w.hist| && w.hist[i].Some? && w.hist[j].Some?
      ensures w.hist[i].value.access != w.hist[j].value.access
    {
      assert w.hist[i] != w.hist[j];
    }
  }

  lemma InsideKeeps(w: World, p: nat, step: Local)
    requires Inv(w) && Apply(w, Inside(p, step)).Some?
    ensures Inv(Apply(w, Inside(p, step)).value)
  {
    var w' := Apply(w, Inside(p, step)).value;
    InvDistinct(w);
    LocalKeeps(w.hist, w.issued, p, w.clients[p], step);
    LinksStay(w, w', p);
  }

  /** A session that was just issued is nowhere in the store's past. */
  lemma NeverStored(w: World, a: AuthTokens)
    requires HistOk(w) && Fresh(w, a)
    ensures a !in w.issued && forall i :: 0 <= i < |w.hist| ==> w.hist[i] != Some(a)
  {
  }

  lemma HistGrows(w: World, w': World)
    requires HistOk(w) && |w'.hist| == |w.hist| + 1 && w.hist <= w'.hist
    requires w'.hist[|w.hist|].Some? ==> w'.hist[|w.hist|].value in w'.issued
    requires forall i :: 0 <= i < |w.hist| && w.hist[i].Some? ==> w.hist[i] != w'.hist[|w.hist|]
    requires forall a <- w.issued :: a in w'.issued
    requires forall a <- w'.issued, b <- w'.issued :: a.access == b.access || a.refresh == b.refresh ==> a == b
    requires forall a <- w'.issued :: a.access != "" && a.refresh != ""
    requires forall i :: 0 <= i < |w'.hist| ==> Linked(w', i)
    ensures HistOk(w')
  {
    forall i, j | 0 <= i < j < |w'.hist| && w'.hist[i].Some? && w'.hist[j].Some? ensures w'.hist[i] != w'.hist[j] {
      assert w'.hist[i] == w.hist[i];
      if j < |w.hist| { assert w'.hist[j] == w.hist[j]; }
    }
  }

  /** The other clients when the store or the issued sessions grow. */
  lemma OthersGrow(w: World, w': World, p: nat)
    requires Inv(w) && w'.clients.Keys == w.clients.Keys
    requires w.hist <= w'.hist && forall a <- w.issued :: a in w'.issued && w'.issued[a] == w.issued[a]
    requires forall q <- w.clients :: q != p ==> w'.clients[q] == w.clients[q]
    ensures forall q <- w'.clients :: q != p ==> ClientOk(w'.hist, w'.issued, q, w'.clients[q]) && Counted(w'.clients[q])
  {
    forall q <- w'.clients | q != p ensures ClientOk(w'.hist, w'.issued, q, w'.clients[q]) {
      ClientGrows(w.hist, w.issued, w'.hist, w'.issued, q, w.clients[q]);
    }
  }

  /** The worker's own client, when its step comes with such growth. */
  lemma GrowAndWork(hist: Hist, issued: Issued, hist': Hist, issued': Issued, p: nat, c: Client, k: nat, worker: Worker)
    requires ClientOk(hist, issued, p, c) && Counted(c) && k in c.calls
    requires hist <= hist' && forall a <- issued :: a in issued' && issued'[a] == issued[a]
    requires (worker.Granted? || worker.Finishing?) && (c.calls[k].worker.Asked? || c.calls[k].worker.Granted?)
    requires CallOk(hist', issued', p, Work(c, k, worker), k, Work(c, k, worker).calls[k])
    ensures ClientOk(hist', issued', p, Work(c, k, worker)) && Counted(Work(c, k, worker))
    ensures Forward(c, Work(c, k, worker), |hist|)
  {
    ClientGrows(hist, issued, hist', issued', p, c);
    WorkKeeps(hist', issued', p, c, k, Work(c, k, worker));
  }

  lemma GrantKeeps(w: World, p: nat, k: nat, a: AuthTokens)
    requires Inv(w) && GrantStep(w, p, k, a).Some?
    ensures Inv(GrantStep(w, p, k, a).value)
  {
    var w' := GrantStep(w, p, k, a).value;
    var c := w.clients[p];
    NeverStored(w, a);
    assert CallOk(w.hist, w.issued, p, c, k, c.calls[k]);
    OthersGrow(w, w', p);
    GrowAndWork(w.hist, w.issued, w'.hist, w'.issued, p, c, k, Granted(a));
    GrantHist(w, p, k, a);
  }

  lemma GrantHist(w: World, p: nat, k: nat, a: AuthTokens)
    requires HistOk(w) && GrantStep(w, p, k, a).Some? && a !in w.issued
    requires Forward(w.clients[p], GrantStep(w, p, k, a).value.clients[p], |w.hist|)
    ensures HistOk(GrantStep(w, p, k, a).value)
  {
    LinksStay(w, GrantStep(w, p, k, a).value, p);
  }

  lemma CommitKeeps(w: World, p: nat, k: nat, fault: Fault)
    requires Inv(w) && CommitStep(w, p, k, fault).Some?
    ensures Inv(CommitStep(w, p, k, fault).value)
  {
    CommitClient(w, p, k, fault);
    OthersGrow(w, CommitStep(w, p, k, fault).value, p);
    CommitHist(w, p, k, fault);
  }

  lemma CommitClient(w: World, p: nat, k: nat, fault: Fault)
    requires HistOk(w) && CommitStep(w, p, k, fault).Some?
    requires ClientOk(w.hist, w.issued, p, w.clients[p]) && Counted(w.clients[p])
    ensures var w' := CommitStep(w, p, k, fault).value;
            && w.hist <= w'.hist && ClientOk(w'.hist, w.issued, p, w'.clients[p]) && Counted(w'.clients[p])
            && Forward(w.clients[p], w'.clients[p], |w.hist|)
  {
    var c := w.clients[p];
    assert CallOk(w.hist, w.issued, p, c, k, c.calls[k]);
    var (hist, worker) := Swap(w, c.calls[k].source, c.calls[k].worker.refreshed, fault);
    CommitCall(w, p, c, k, fault);
    GrowAndWork(w.hist, w.issued, hist, w.issued, p, c, k, worker);
  }

  lemma CommitHist(w: World, p: nat, k: nat, fault: Fault)
    requires HistOk(w) && CommitStep(w, p, k, fault).Some?
    requires CallOk(w.hist, w.issued, p, w.clients[p], k, w.clients[p].calls[k])
    requires Forward(w.clients[p], CommitStep(w, p, k, fault).value.clients[p], |w.hist|)
    ensures HistOk(CommitStep(w, p, k, fault).value)
  {
    var w' := CommitStep(w, p, k, fault).value;
    CommitCall(w, p, w.clients[p], k, fault);
    LinksStay(w, w', p);
    if w'.hist != w.hist {
      CommitLinks(w, w', p, k);
      HistGrows(w, w');
    }
  }

  lemma CommitCall(w: World, p: nat, c: Client, k: nat, fault: Fault)
    requires |w.hist| > 0 && k in c.calls && c.calls[k].worker.Granted? && CallOk(w.hist, w.issued, p, c, k, c.calls[k])
    requires c.calls[k].worker.refreshed.access != ""
    ensures var (hist, worker) := Swap(w, c.calls[k].source, c.calls[k].worker.refreshed, fault);
            w.hist <= hist && worker.Finishing? && CallOk(hist, w.issued, p, Work(c, k, worker), k, Work(c, k, worker).calls[k])
  {
    assert w.hist[c.calls[k].at] == Some(c.calls[k].source);
  }

  /** The compare-and-swap writes only over the very session it exchanged, and writes a new one. */
  lemma CommitLinks(w: World, w': World, p: nat, k: nat)
    requires HistOk(w) && p in w.clients && k in w.clients[p].calls && p in w'.clients
    requires var call := w.clients[p].calls[k];
             && call.worker.Granted? && CallOk(w.hist, w.issued, p, w.clients[p], k, call)
             && Stored(w) == Some(call.source)
             && w'.hist == w.hist + [Some(call.worker.refreshed)] && w'.issued == w.issued
             && k in w'.clients[p].calls && w'.clients[p].calls[k].source == call.source
             && w'.clients[p].calls[k].worker.Finishing?
    ensures Linked(w', |w.hist|)
    ensures forall i :: 0 <= i < |w.hist| ==> w.hist[i] != w'.hist[|w.hist|]
  {
    var n := |w.hist|;
    assert w'.hist[n - 1] == Stored(w);
    forall i | 0 <= i < n ensures w.hist[i] != w'.hist[n] {
      // A stored session of this call's exchange would mean that the call is past its commit.
      assert Linked(w, i);
    }
  }

  lemma OutsideKeeps(w: World, l: Label)
    requires Inv(w) && (l.SignIn? || l.SignOut?) && Apply(w, l).Some?
    ensures Inv(Apply(w, l).value)
  {
    var w' := Apply(w, l).value;
    if l.SignIn? { NeverStored(w, l.tokens); }
    forall q <- w.clients ensures ClientOk(w'.hist, w'.issued, q, w.clients[q]) {
      ClientGrows(w.hist, w.issued, w'.hist, w'.issued, q, w.clients[q]);
    }
    forall i | 0 <= i < |w'.hist| ensures Linked(w', i) {
      if i < |w.hist| {
        assert Linked(w, i) && w'.hist[i] == w.hist[i];
        if i > 0 { assert w'.hist[i - 1] == w.hist[i - 1]; }
      }
    }
    HistGrows(w, w');
  }

  lemma StepKeeps(w: World, l: Label)
    requires Inv(w) && Apply(w, l).Some?
    ensures Inv(Apply(w, l).value)
  {
    match l
    case Inside(p, step) => InsideKeeps(w, p, step);
    case Grant(p, k, a) => GrantKeeps(w, p, k, a);
    case Commit(p, k, fault) => CommitKeeps(w, p, k, fault);
    case SignIn(_) => OutsideKeeps(w, l);
    case SignOut => OutsideKeeps(w, l);
  }

  lemma InitInv(w: World)
    requires Init(w)
    ensures Inv(w)
  {
    assert Linked(w, 0);
  }

  lemma {:induction false} RunKeeps(w: World, steps: seq<Label>)
    requires Inv(w) && Run(w, steps).Some?
    ensures Inv(Run(w, steps).value)
    decreases |steps|
  {
    if steps != [] {
      StepKeeps(w, steps[0]);
      RunKeeps(Apply(w, steps[0]).value, steps[1..]);
    }
  }

  lemma ReachableInv(w: World)
    requires Reachable(w)
    ensures Inv(w)
  {
    var w0: World, steps: seq<Label> :| Init(w0) && Run(w0, steps) == Some(w);
    InitInv(w0);
    RunKeeps(w0, steps);
  }

  lemma {:induction false} RunThen(w0: World, steps: seq<Label>, l: Label)
    requires Run(w0, steps).Some? && Apply(Run(w0, steps).value, l).Some?
    ensures Run(w0, steps + [l]) == Apply(Run(w0, steps).value, l)
    decreases |steps|
  {
    if steps == [] {
      assert ([] + [l])[1..] == [];
    } else {
      assert (steps + [l])[1..] == steps[1..] + [l];
      RunThen(Apply(w0, steps[0]).value, steps[1..], l);
    }
  }
}
