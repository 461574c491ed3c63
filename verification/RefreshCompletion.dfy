/** A refresh that was started completes by the steps of its leader and its worker alone: nobody
    else can hold it up, and its waiters can leave without disturbing it. */
module RefreshCompletion {
  import opened Session
  import opened Refresh
  import opened RefreshInvariant
  import opened RefreshSteps

  // ---------------------------------------------------------------- one more invariant

  /** A call that has no worker yet still has the caller that is going to launch it. */
  ghost predicate Led(c: Client) {
    forall k <- c.calls :: c.calls[k].worker.Unlaunched? ==> LedBy(c, k)
  }

  ghost predicate LedBy(c: Client, k: nat)
    requires k in c.calls
  {
    c.calls[k].leader in c.callers && Leading(c.callers[c.calls[k].leader].pc) == Some(k)
  }

  ghost predicate LedAfter(next: Option<Client>) {
    next.Some? ==> Led(next.value)
  }

  /** A caller before the decision. */
  predicate Entering(step: Local) {
    step.Begin? || step.GiveUp? || step.FirstLook? || step.TakeGate? || step.SecondLook? || step.LoadStored?
  }

  /** A caller from the decision on. */
  predicate Decided(step: Local) {
    step.ThirdLook? || step.Release? || step.Launch? || step.Collect? || step.Leave?
  }

  lemma CallerStepLeads(hist: Hist, c: Client, step: Local)
    requires Led(c) && |hist| > 0
    requires Entering(step)
    ensures LedAfter(LocalStep(hist, c, step))
  {
    match step
    case Begin(j, req) => assert LedAfter(BeginStep(hist, c, j, req));
    case GiveUp(j) => assert LedAfter(GiveUpStep(c, j));
    case FirstLook(j) => assert LedAfter(FirstLookStep(c, j));
    case TakeGate(j) => assert LedAfter(TakeGateStep(c, j));
    case SecondLook(j) => assert LedAfter(SecondLookStep(c, j));
    case LoadStored(j, ok) => assert LedAfter(LoadStep(hist, c, j, ok));
  }

  lemma WaiterStepLeads(hist: Hist, c: Client, step: Local)
    requires Led(c) && |hist| > 0
    requires Decided(step)
    ensures LedAfter(LocalStep(hist, c, step))
  {
    match step
    case ThirdLook(j, now, id) => assert LedAfter(ThirdLookStep(c, j, now, id));
    case Release(j) => assert LedAfter(ReleaseStep(c, j));
    case Launch(j) => assert LedAfter(LaunchStep(c, j));
    case Collect(j) => assert LedAfter(CollectStep(c, j));
    case Leave(j) => assert LedAfter(LeaveStep(c, j));
  }

  lemma WorkerStepLeads(hist: Hist, c: Client, step: Local)
    requires Led(c) && |hist| > 0 && !Entering(step) && !Decided(step)
    ensures LedAfter(LocalStep(hist, c, step))
  {
    match step
    case Send(k) => assert LedAfter(SendStep(c, k));
    case Deny(k) => assert LedAfter(DenyStep(c, k));
    case Reject(k) => assert LedAfter(RejectStep(c, k));
    case Reload(k, ok) => assert LedAfter(ReloadStep(hist, c, k, ok));
    case Finish(k) => assert LedAfter(FinishStep(hist, c, k));
    case _ =>
  }

  lemma LocalLeads(hist: Hist, c: Client, step: Local)
    requires Led(c) && |hist| > 0
    ensures LedAfter(LocalStep(hist, c, step))
  {
    if Entering(step) { CallerStepLeads(hist, c, step); }
    else if Decided(step) { WaiterStepLeads(hist, c, step); }
    else { WorkerStepLeads(hist, c, step); }
  }

  ghost predicate AllLed(w: World) { forall p <- w.clients :: Led(w.clients[p]) }

  lemma StepLeads(w: World, l: Label)
    requires AllLed(w) && Apply(w, l).Some?
    ensures AllLed(Apply(w, l).value)
  {
    if l.Inside? { LocalLeads(w.hist, w.clients[l.client], l.step); }
  }

  lemma {:induction false} RunLeads(w: World, steps: seq<Label>)
    requires AllLed(w) && Run(w, steps).Some?
    ensures AllLed(Run(w, steps).value)
    decreases |steps|
  {
    if steps != [] {
      StepLeads(w, steps[0]);
      RunLeads(Apply(w, steps[0]).value, steps[1..]);
    }
  }

  lemma ReachableLed(w: World)
    requires Reachable(w)
    ensures Inv(w) && AllLed(w)
  {
    var w0: World, steps: seq<Label> :| Init(w0) && Run(w0, steps) == Some(w);
    RunLeads(w0, steps);
    ReachableInv(w);
  }

  // ---------------------------------------------------------------- progress

  /** How many steps a call still has to make at most. */
  function Remaining(c: Client, k: nat): nat
    requires k in c.calls
  {
    match c.calls[k].worker
    case Unlaunched =>
      var j := c.calls[k].leader;
      if j in c.callers && c.callers[j].pc == Launching(k) then 5 else 6
    case Ready => 4
    case Asked => 3
    case Granted(_) => 2
    case Denied => 2
    case Finishing(_, _) => 1
    case Done(_, _, _) => 0
  }

  /** The step is made for call `k`, by the caller that started it or by its worker (with the answers
      of the server and of the store). */
  predicate Own(c: Client, p: nat, k: nat, l: Label)
    requires k in c.calls
  {
    match l
    case Inside(q, Release(j)) => q == p && j in c.callers && c.callers[j].pc == Releasing(Lead(k))
    case Inside(q, Launch(j)) => q == p && j in c.callers && c.callers[j].pc == Launching(k)
    case Inside(q, Send(i)) => q == p && i == k
    case Inside(q, Deny(i)) => q == p && i == k
    case Inside(q, Reject(i)) => q == p && i == k
    case Inside(q, Reload(i, _)) => q == p && i == k
    case Inside(q, Finish(i)) => q == p && i == k
    case Grant(q, i, _) => q == p && i == k
    case Commit(q, i, _) => q == p && i == k
    case _ => false
  }

  /** An own step brings call `k` nearer to its end, and no other step changes how far it is. */
  ghost predicate Progress(c: Client, next: Option<Client>, k: nat, own: bool)
    requires k in c.calls
  {
    next.Some? ==>
      && k in next.value.calls
      && if own then Remaining(next.value, k) < Remaining(c, k) else Remaining(next.value, k) == Remaining(c, k)
  }

  lemma CallerProgress(hist: Hist, c: Client, k: nat, step: Local)
    requires Led(c) && |hist| > 0 && k in c.calls && Entering(step)
    ensures Progress(c, LocalStep(hist, c, step), k, false)
  {
    match step
    case Begin(j, req) => assert Progress(c, BeginStep(hist, c, j, req), k, false);
    case GiveUp(j) => assert Progress(c, GiveUpStep(c, j), k, false);
    case FirstLook(j) => assert Progress(c, FirstLookStep(c, j), k, false);
    case TakeGate(j) => assert Progress(c, TakeGateStep(c, j), k, false);
    case SecondLook(j) => assert Progress(c, SecondLookStep(c, j), k, false);
    case LoadStored(j, ok) => assert Progress(c, LoadStep(hist, c, j, ok), k, false);
  }

  /** Nobody but its leader is about to launch call `k`. */
  ghost predicate OneLeader(c: Client, k: nat)
    requires k in c.calls
  {
    forall j <- c.callers :: Leading(c.callers[j].pc) == Some(k) ==>
      c.calls[k].leader == j && c.calls[k].worker.Unlaunched?
  }

  lemma LeaderIsAlone(hist: Hist, issued: Issued, p: nat, c: Client, k: nat)
    requires k in c.calls && ClientOk(hist, issued, p, c)
    ensures OneLeader(c, k)
  {
    forall j <- c.callers | Leading(c.callers[j].pc) == Some(k)
      ensures c.calls[k].leader == j && c.calls[k].worker.Unlaunched?
    {
      assert CallerOk(hist, c, j, c.callers[j]);
    }
  }

  lemma WaiterProgress(hist: Hist, c: Client, p: nat, k: nat, step: Local)
    requires Led(c) && |hist| > 0 && k in c.calls && OneLeader(c, k) && Decided(step)
    ensures Progress(c, LocalStep(hist, c, step), k, Own(c, p, k, Inside(p, step)))
  {
    var own := Own(c, p, k, Inside(p, step));
    match step
    case ThirdLook(j, now, id) => assert Progress(c, ThirdLookStep(c, j, now, id), k, own);
    case Release(j) => ReleaseProgress(c, p, k, j);
    case Launch(j) => assert Progress(c, LaunchStep(c, j), k, own);
    case _ => EndProgress(hist, c, p, k, step);
  }

  lemma ReleaseProgress(c: Client, p: nat, k: nat, j: nat)
    requires Led(c) && k in c.calls && OneLeader(c, k)
    ensures Progress(c, ReleaseStep(c, j), k, Own(c, p, k, Inside(p, Release(j))))
  {
  }

  lemma EndProgress(hist: Hist, c: Client, p: nat, k: nat, step: Local)
    requires Led(c) && |hist| > 0 && k in c.calls && OneLeader(c, k) && (step.Collect? || step.Leave?)
    ensures Progress(c, LocalStep(hist, c, step), k, false)
  {
    match step
    case Collect(j) => assert Progress(c, CollectStep(c, j), k, false);
    case Leave(j) => assert Progress(c, LeaveStep(c, j), k, false);
  }

  lemma WorkerProgress(hist: Hist, c: Client, p: nat, k: nat, step: Local)
    requires |hist| > 0 && k in c.calls && !Entering(step) && !Decided(step)
    ensures Progress(c, LocalStep(hist, c, step), k, Own(c, p, k, Inside(p, step)))
  {
    var own := Own(c, p, k, Inside(p, step));
    match step
    case Send(i) => assert Progress(c, SendStep(c, i), k, own);
    case Deny(i) => assert Progress(c, DenyStep(c, i), k, own);
    case Reject(i) => assert Progress(c, RejectStep(c, i), k, own);
    case Reload(i, ok) => assert Progress(c, ReloadStep(hist, c, i, ok), k, own);
    case Finish(i) => assert Progress(c, FinishStep(hist, c, i), k, own);
    case _ =>
  }

  lemma LocalProgress(hist: Hist, issued: Issued, c: Client, p: nat, k: nat, step: Local)
    requires Led(c) && |hist| > 0 && k in c.calls && ClientOk(hist, issued, p, c)
    ensures Progress(c, LocalStep(hist, c, step), k, Own(c, p, k, Inside(p, step)))
  {
    LeaderIsAlone(hist, issued, p, c, k);
    if Entering(step) { CallerProgress(hist, c, k, step); }
    else if Decided(step) { WaiterProgress(hist, c, p, k, step); }
    else { WorkerProgress(hist, c, p, k, step); }
  }

  /** The server's grant and the store's transaction move one worker. */
  lemma OutsideProgress(w: World, p: nat, k: nat, l: Label)
    requires p in w.clients && k in w.clients[p].calls && Apply(w, l).Some? && !l.Inside?
    ensures var w' := Apply(w, l).value;
      p in w'.clients && Progress(w.clients[p], Some(w'.clients[p]), k, Own(w.clients[p], p, k, l))
  {
    match l
    case Grant(q, i, a) => assert Apply(w, l) == GrantStep(w, q, i, a);
    case Commit(q, i, fault) => assert Apply(w, l) == CommitStep(w, q, i, fault);
    case _ =>
  }

  /** Every step of the leader or the worker brings the call nearer to its end. All other steps,
      cancelled waiters and other clients included, leave it exactly as far as it is. */
  lemma OwnStepsMakeProgress(w: World, p: nat, k: nat, l: Label)
    requires Reachable(w) && p in w.clients && k in w.clients[p].calls && Apply(w, l).Some?
    ensures var w' := Apply(w, l).value;
      p in w'.clients && Progress(w.clients[p], Some(w'.clients[p]), k, Own(w.clients[p], p, k, l))
  {
    if l.Inside? {
      ReachableLed(w);
      LocalProgress(w.hist, w.issued, w.clients[p], p, k, l.step);
    } else {
      OutsideProgress(w, p, k, l);
    }
  }

  /** How many steps of a run are own steps of call `k`. */
  ghost function OwnSteps(w: World, p: nat, k: nat, steps: seq<Label>): nat
    requires Run(w, steps).Some?
    decreases |steps|
  {
    if steps == [] then 0 else
    (if p in w.clients && k in w.clients[p].calls && Own(w.clients[p], p, k, steps[0]) then 1 else 0)
    + OwnSteps(Apply(w, steps[0]).value, p, k, steps[1..])
  }

  /** In any run a call makes at most as many steps as remained, and every one of them counts. */
  lemma {:induction false} RunsMakeProgress(w: World, p: nat, k: nat, steps: seq<Label>)
    requires Reachable(w) && p in w.clients && k in w.clients[p].calls && Run(w, steps).Some?
    ensures var w' := Run(w, steps).value;
      && p in w'.clients && k in w'.clients[p].calls
      && Remaining(w'.clients[p], k) + OwnSteps(w, p, k, steps) <= Remaining(w.clients[p], k) <= 6
    decreases |steps|
  {
    if steps != [] {
      var v := Apply(w, steps[0]).value;
      OwnStepsMakeProgress(w, p, k, steps[0]);
      StepReaches(w, steps[0]);
      RunsMakeProgress(v, p, k, steps[1..]);
    }
  }

  lemma StepReaches(w: World, l: Label)
    requires Reachable(w) && Apply(w, l).Some?
    ensures Reachable(Apply(w, l).value)
  {
    var w0: World, steps: seq<Label> :| Init(w0) && Run(w0, steps) == Some(w);
    RunThen(w0, steps, l);
  }

  // ---------------------------------------------------------------- completion

  /** The next step of an unfinished call; a request that is under way yields `answer`, or fails. */
  function NextOwn(c: Client, p: nat, k: nat, answer: Option<AuthTokens>): Label
    requires k in c.calls && !c.calls[k].worker.Done?
  {
    match c.calls[k].worker
    case Unlaunched =>
      var j := c.calls[k].leader;
      if j in c.callers && c.callers[j].pc == Launching(k) then Inside(p, Launch(j)) else Inside(p, Release(j))
    case Ready => Inside(p, Send(k))
    case Asked => if answer.None? then Inside(p, Deny(k)) else Grant(p, k, answer.value)
    case Granted(_) => Commit(p, k, Clean)
    case Denied => Inside(p, Reload(k, true))
    case Finishing(_, _) => Inside(p, Finish(k))
  }

  /** The step it takes inside its client; it frees the client when it is the last. */
  lemma NextInside(hist: Hist, issued: Issued, p: nat, c: Client, k: nat)
    requires |hist| > 0 && ClientOk(hist, issued, p, c) && Led(c) && k in c.calls
    requires !c.calls[k].worker.Done? && !c.calls[k].worker.Granted?
    ensures var next := LocalStep(hist, c, NextOwn(c, p, k, None).step);
            next.Some? && k in next.value.calls && (next.value.calls[k].worker.Done? ==> next.value.inflight.None?)
  {
    if c.calls[k].worker.Unlaunched? {
      NextLeading(hist, p, c, k);
    } else {
      NextWorking(hist, issued, p, c, k);
    }
  }

  lemma NextLeading(hist: Hist, p: nat, c: Client, k: nat)
    requires |hist| > 0 && Led(c) && k in c.calls && c.calls[k].worker.Unlaunched?
    ensures var next := LocalStep(hist, c, NextOwn(c, p, k, None).step);
            next.Some? && k in next.value.calls && !next.value.calls[k].worker.Done?
  {
    assert LedBy(c, k);
    var j := c.calls[k].leader;
    if c.callers[j].pc == Launching(k) {
      assert LocalStep(hist, c, Launch(j)) == LaunchStep(c, j);
    } else {
      assert LocalStep(hist, c, Release(j)) == ReleaseStep(c, j);
    }
  }

  lemma NextWorking(hist: Hist, issued: Issued, p: nat, c: Client, k: nat)
    requires |hist| > 0 && k in c.calls && CallOk(hist, issued, p, c, k, c.calls[k])
    requires !c.calls[k].worker.Done? && !c.calls[k].worker.Granted? && !c.calls[k].worker.Unlaunched?
    ensures var next := LocalStep(hist, c, NextOwn(c, p, k, None).step);
            next.Some? && k in next.value.calls && (next.value.calls[k].worker.Done? ==> next.value.inflight.None?)
  {
    match c.calls[k].worker
    case Ready => assert LocalStep(hist, c, Send(k)) == SendStep(c, k);
    case Asked => assert LocalStep(hist, c, Deny(k)) == DenyStep(c, k);
    case Denied => assert LocalStep(hist, c, Reload(k, true)) == ReloadStep(hist, c, k, true);
    case Finishing(_, _) => assert LocalStep(hist, c, Finish(k)) == FinishStep(hist, c, k);
  }

  lemma NextOutside(w: World, p: nat, k: nat, l: Label)
    requires |w.hist| > 0 && p in w.clients && k in w.clients[p].calls
    requires match w.clients[p].calls[k].worker
      case Asked => l.Grant? && Fresh(w, l.tokens)
      case Granted(_) => l.Commit?
      case _ => false
    requires l.client == p && l.call == k
    ensures var next := Apply(w, l);
            next.Some? && p in next.value.clients && k in next.value.clients[p].calls
            && !next.value.clients[p].calls[k].worker.Done?
  {
    match l
    case Grant(_, _, a) => assert Apply(w, l) == GrantStep(w, p, k, a);
    case Commit(_, _, fault) => assert Apply(w, l) == CommitStep(w, p, k, fault);
  }

  /** An unfinished call is never stuck: its next step is enabled whatever everybody else has done,
      and frees the client if it is the last one. */
  lemma NextOwnStepIsEnabled(w: World, p: nat, k: nat, answer: Option<AuthTokens>)
    requires Reachable(w) && p in w.clients && k in w.clients[p].calls && !w.clients[p].calls[k].worker.Done?
    requires answer.Some? ==> Fresh(w, answer.value)
    ensures var l := NextOwn(w.clients[p], p, k, answer);
            var next := Apply(w, l);
      && Own(w.clients[p], p, k, l)
      && next.Some? && p in next.value.clients && k in next.value.clients[p].calls
      && (next.value.clients[p].calls[k].worker.Done? ==> next.value.clients[p].inflight.None?)
  {
    ReachableLed(w);
    var c := w.clients[p];
    var l := NextOwn(c, p, k, answer);
    NextIsOwn(c, p, k, answer);
    if l.Inside? {
      assert l == NextOwn(c, p, k, None);
      NextInside(w.hist, w.issued, p, c, k);
    } else {
      NextOutside(w, p, k, l);
    }
  }

  lemma NextIsOwn(c: Client, p: nat, k: nat, answer: Option<AuthTokens>)
    requires Led(c) && k in c.calls && !c.calls[k].worker.Done?
    ensures Own(c, p, k, NextOwn(c, p, k, answer))
  {
    if c.calls[k].worker.Unlaunched? { assert LedBy(c, k); }
  }

  /** The caller can go on to collect the result of call `k`. */
  ghost predicate CanCollect(c: Client, j: nat)
    requires j in c.callers
  {
    if c.callers[j].pc.Waiting? then CollectStep(c, j).Some?
    else ReleaseStep(c, j).Some? && CollectStep(ReleaseStep(c, j).value, j).Some?
  }

  /** The call is closed, the next refresh may start, and everybody who stayed for this one can collect. */
  ghost predicate Completed(w: World, p: nat, k: nat) {
    && p in w.clients && k in w.clients[p].calls && w.clients[p].calls[k].worker.Done?
    && w.clients[p].inflight.None?
    && forall j <- Waiters(w.clients[p], k) :: CanCollect(w.clients[p], j)
  }

  lemma WaiterCanCollect(hist: Hist, c: Client, j: nat, k: nat)
    requires j in c.callers && On(c.callers[j].pc) == Some(k) && CallerOk(hist, c, j, c.callers[j])
    requires k in c.calls && c.calls[k].worker.Done?
    ensures CanCollect(c, j)
  {
    if c.callers[j].pc.Releasing? {
      assert c.callers[j].pc.after == Join(k);
      assert ReleaseStep(c, j).value.callers[j].pc == Waiting(k);
    }
  }

  /** In every reachable world, everybody who stayed for a finished call can collect its result. */
  lemma WaitersCanCollect(w: World, p: nat, k: nat)
    requires Reachable(w) && p in w.clients && k in w.clients[p].calls && w.clients[p].calls[k].worker.Done?
    ensures forall j <- Waiters(w.clients[p], k) :: CanCollect(w.clients[p], j)
  {
    ReachableInv(w);
    var c := w.clients[p];
    forall j <- Waiters(c, k) ensures CanCollect(c, j) {
      WaiterCanCollect(w.hist, c, j, k);
    }
  }

  /** Only own steps of call `k` are needed, and no more than remained. */
  ghost predicate CompletesBy(w: World, p: nat, k: nat, steps: seq<Label>)
    requires p in w.clients && k in w.clients[p].calls
  {
    && Run(w, steps).Some? && Completed(Run(w, steps).value, p, k)
    && OwnSteps(w, p, k, steps) == |steps| <= Remaining(w.clients[p], k)
  }

  /** In every reachable world a refresh that was started can be completed by its leader's and its
      worker's own steps, whatever the server answers and with every waiter idle or gone. Afterwards
      the client is free for the next refresh and every waiter can collect the result. */
  lemma {:induction false} RefreshCompletes(w: World, p: nat, k: nat, answer: Option<AuthTokens>)
    requires Reachable(w) && p in w.clients && k in w.clients[p].calls && !w.clients[p].calls[k].worker.Done?
    requires answer.Some? ==> Fresh(w, answer.value)
    ensures exists steps :: CompletesBy(w, p, k, steps)
    decreases Remaining(w.clients[p], k)
  {
    var l := NextOwn(w.clients[p], p, k, answer);
    NextOwnStepIsEnabled(w, p, k, answer);
    OwnStepsMakeProgress(w, p, k, l);
    StepReaches(w, l);
    var v := Apply(w, l).value;
    var rest: seq<Label> := [];
    if v.clients[p].calls[k].worker.Done? {
      WaitersCanCollect(v, p, k);
      assert CompletesBy(v, p, k, rest);
    } else {
      if l.Inside? { InsideKeepsIssued(w, l); }
      RefreshCompletes(v, p, k, if l.Inside? then answer else None);
      rest :| CompletesBy(v, p, k, rest);
    }
    OneOwnStepMore(w, p, k, l, rest);
  }

  lemma InsideKeepsIssued(w: World, l: Label)
    requires l.Inside? && Apply(w, l).Some?
    ensures Apply(w, l).value.issued == w.issued
  {
  }

  lemma OneOwnStepMore(w: World, p: nat, k: nat, l: Label, rest: seq<Label>)
    requires p in w.clients && k in w.clients[p].calls && Apply(w, l).Some? && Own(w.clients[p], p, k, l)
    requires var v := Apply(w, l).value;
             && p in v.clients && k in v.clients[p].calls && CompletesBy(v, p, k, rest)
             && Remaining(v.clients[p], k) < Remaining(w.clients[p], k)
    ensures CompletesBy(w, p, k, [l] + rest)
  {
    assert ([l] + rest)[0] == l && ([l] + rest)[1..] == rest;
  }

  // ---------------------------------------------------------------- callers

  /** The next step of a caller; `id` names the call in case one is started. */
  function NextStep(c: Client, j: nat, now: int, id: nat): Local
    requires j in c.callers && !c.callers[j].pc.Finished?
  {
    match c.callers[j].pc
    case Started => FirstLook(j)
    case WantGate => TakeGate(j)
    case Holding => SecondLook(j)
    case Loading => LoadStored(j, true)
    case Deciding(_, _) => ThirdLook(j, now, id)
    case Releasing(_) => Release(j)
    case Launching(_) => Launch(j)
    case Waiting(_) => Collect(j)
  }

  /** In every reachable world a caller can take its next step, unless another caller has the gate or
      the call it waits for is unfinished; and whoever has the gate is between taking and giving it back. */
  lemma CallersAreNeverStuck(w: World, p: nat, j: nat, now: int, id: nat)
    requires Reachable(w) && p in w.clients && j in w.clients[p].callers && !w.clients[p].callers[j].pc.Finished?
    requires id !in w.clients[p].calls
    ensures var c := w.clients[p];
            var pc := c.callers[j].pc;
      && (Apply(w, Inside(p, NextStep(c, j, now, id))).Some? <==>
            && (pc.WantGate? ==> c.gate.None?)
            && (pc.Waiting? ==> pc.call in c.calls && c.calls[pc.call].worker.Done?))
      && (c.gate.Some? ==> c.gate.value in c.callers && RefreshInvariant.Holds(c.callers[c.gate.value].pc))
  {
    ReachableInv(w);
    var c := w.clients[p];
    assert CallerOk(w.hist, c, j, c.callers[j]);
    if c.gate.Some? { assert CallerOk(w.hist, c, c.gate.value, c.callers[c.gate.value]); }
    NextStepIsEnabled(w.hist, w.issued, p, c, j, now, id);
  }

  lemma NextStepIsEnabled(hist: Hist, issued: Issued, p: nat, c: Client, j: nat, now: int, id: nat)
    requires |hist| > 0 && ClientOk(hist, issued, p, c) && j in c.callers && !c.callers[j].pc.Finished? && id !in c.calls
    ensures var pc := c.callers[j].pc;
      LocalStep(hist, c, NextStep(c, j, now, id)).Some? <==>
        && (pc.WantGate? ==> c.gate.None?)
        && (pc.Waiting? ==> pc.call in c.calls && c.calls[pc.call].worker.Done?)
  {
    assert CallerOk(hist, c, j, c.callers[j]);
    if Entering(NextStep(c, j, now, id)) {
      EnteringIsEnabled(hist, c, j, now, id);
    } else {
      DecidedIsEnabled(hist, c, j, now, id);
    }
  }

  lemma EnteringIsEnabled(hist: Hist, c: Client, j: nat, now: int, id: nat)
    requires |hist| > 0 && j in c.callers && !c.callers[j].pc.Finished? && Entering(NextStep(c, j, now, id))
    requires c.inflight.Some? ==> c.inflight.value in c.calls
    ensures LocalStep(hist, c, NextStep(c, j, now, id)).Some? <==> (c.callers[j].pc.WantGate? ==> c.gate.None?)
  {
    match c.callers[j].pc
    case Started => assert LocalStep(hist, c, FirstLook(j)) == FirstLookStep(c, j);
    case WantGate => assert LocalStep(hist, c, TakeGate(j)) == TakeGateStep(c, j);
    case Holding => assert LocalStep(hist, c, SecondLook(j)) == SecondLookStep(c, j);
    case Loading => assert LocalStep(hist, c, LoadStored(j, true)) == LoadStep(hist, c, j, true);
    case _ =>
  }

  lemma DecidedIsEnabled(hist: Hist, c: Client, j: nat, now: int, id: nat)
    requires |hist| > 0 && j in c.callers && !c.callers[j].pc.Finished? && !Entering(NextStep(c, j, now, id))
    requires CallerOk(hist, c, j, c.callers[j]) && id !in c.calls
    ensures var pc := c.callers[j].pc;
      LocalStep(hist, c, NextStep(c, j, now, id)).Some?
      <==> (pc.Waiting? ==> pc.call in c.calls && c.calls[pc.call].worker.Done?)
  {
    match c.callers[j].pc
    case Deciding(_, _) => assert LocalStep(hist, c, ThirdLook(j, now, id)) == ThirdLookStep(c, j, now, id);
    case Releasing(_) => assert LocalStep(hist, c, Release(j)) == ReleaseStep(c, j);
    case Launching(_) => assert LocalStep(hist, c, Launch(j)) == LaunchStep(c, j);
    case Waiting(_) => assert LocalStep(hist, c, Collect(j)) == CollectStep(c, j);
    case _ =>
  }
}
