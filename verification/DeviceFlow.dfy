/** Device authorization (RFC 8628) against one shared store: every transaction of every flow,
    poller and client is one atomic step; the server's answers are part of the labels. */
module DeviceFlow {
  import opened Session

  /** Length of the generation's cycle: 0 is never returned to. */
  const CYCLE: int := 0xFFFF_FFFF_FFFF_FFFF

  /** A number of bumps without the full cycles. */
  function Residue(n: int): int { n % 0xFFFF_FFFF_FFFF_FFFF }

  // ---------------------------------------------------------------- the callbacks

  datatype Reservation = Reservation(generation: uint64, previous: Option<AuthTokens>)

  function ReserveUpdate(): Update<Reservation> {
    (s: State) =>
      var next := NextGeneration(s.generation);
      Ok((s.(generation := next), Reservation(next, s.auth)))
  }

  function CommitUpdate(r: Reservation, pending: Pending): Update<()> {
    (s: State) =>
      if s.generation != r.generation || s.auth != r.previous then Err(Superseded)
      else Ok((s.(pending := Some(pending)), ()))
  }

  predicate PendingIs(s: State, code: string) {
    s.pending.Some? && s.pending.value.deviceCode == code
  }

  function PollUpdate(code: string, tokens: AuthTokens): Update<()> {
    (s: State) =>
      if !PendingIs(s, code) then Err(Superseded)
      else Ok((State(Some(tokens), None, NextGeneration(s.generation)), ()))
  }

  function TerminalUpdate(code: string): Update<()> {
    (s: State) =>
      if !PendingIs(s, code) then Ok((s, ()))
      else Ok((s.(pending := None, generation := NextGeneration(s.generation)), ()))
  }

  predicate Expired(s: State, now: int64) {
    s.pending.Some? && now >= s.pending.value.expiresAt
  }

  /** Captures the flow to resume, if there is one. */
  function ResumeUpdate(now: int64): Update<Option<Pending>> {
    (s: State) =>
      if Expired(s, now) then Ok((s.(pending := None, generation := NextGeneration(s.generation)), None))
      else Ok((s, s.pending))
  }

  /** `MemoryStorage.Clear`. */
  function Cleared(s: State): State {
    State(None, None, NextGeneration(s.generation))
  }

  /** `FileStorage.Clear` of an existing file: the generation goes with the other keys before it is bumped. */
  const FILE_CLEARED: State := State(None, None, NextGeneration(0))

  // ---------------------------------------------------------------- the machine

  /** Generation bumps and clears so far; `reset` is the number of bumps before the last clear of the file. */
  datatype Progress = Progress(bumps: nat, clears: nat, reset: Option<nat>)

  /** What a flow's reservation found: bumps (its own included), clears, and the code that was pending then. */
  datatype Past = Past(bumps: nat, clears: nat, rival: Option<string>)

  /** `end` is the progress when the flow was committed. */
  datatype Flow =
    | Reserved(r: Reservation, past: Past)
    | Answered(r: Reservation, past: Past, pending: Pending)
    | Committed(r: Reservation, past: Past, code: string, end: Progress)
    | Failed

  datatype World = World(
    state: State,
    flows: map<nat, Flow>,
    at: Progress,
    codes: set<string>,          // device codes the server has issued
    shown: set<string>,          // device codes that have ever been pending
    stored: seq<string>,         // device codes whose poll stored tokens, in order
    sessions: set<AuthTokens>)   // sessions the server has issued

  datatype Label =
    | Reserve(flow: nat, now: int64)
    | Respond(flow: nat, pending: Pending)
    | Abandon(flow: nat)
    | Commit(flow: nat, now: int64)
    | PollSuccess(code: string, tokens: AuthTokens, now: int64)
    | Terminal(code: string, now: int64)
    | Resume(now: int64)
    | Clear
    | ClearFile
    | Rotate(tokens: AuthTokens)   // a token refresh replaced the session

  function PendingCode(s: State): Option<string> {
    if s.pending.Some? then Some(s.pending.value.deviceCode) else None
  }

  /** Whether a step advances the stored generation; decided without looking at generations. */
  function Bump(w: World, l: Label): nat {
    match l
    case Reserve(_, _) => 1
    case Clear => 1
    case PollSuccess(code, _, _) => if PendingIs(w.state, code) then 1 else 0
    case Terminal(code, _) => if PendingIs(w.state, code) then 1 else 0
    case Resume(now) => if Expired(w.state, now) then 1 else 0
    case _ => 0
  }

  function Advanced(w: World, l: Label): Progress {
    Progress(
      w.at.bumps + Bump(w, l),
      w.at.clears + if l.Clear? || l.ClearFile? then 1 else 0,
      if l.ClearFile? then Some(w.at.bumps) else w.at.reset)
  }

  function ReserveStep(w: World, i: nat, now: int64): Option<World> {
    if i in w.flows then None else
    match Transact(w.state, ReserveUpdate(), false, now)
    case Outcome(_, Err(_)) => None
    case Outcome(s, Ok(r)) =>
      Some(w.(state := s, flows := w.flows[i := Reserved(r, Past(w.at.bumps + 1, w.at.clears, PendingCode(w.state)))]))
  }

  /** The server answers with a device code it never issued before. */
  function RespondStep(w: World, i: nat, pending: Pending): Option<World> {
    if i !in w.flows || !w.flows[i].Reserved? || !ValidPending(pending) || pending.deviceCode in w.codes then None else
    var f := w.flows[i];
    Some(w.(codes := w.codes + {pending.deviceCode}, flows := w.flows[i := Answered(f.r, f.past, pending)]))
  }

  function AbandonStep(w: World, i: nat): Option<World> {
    if i !in w.flows || w.flows[i].Committed? then None else Some(w.(flows := w.flows[i := Failed]))
  }

  function CommitStep(w: World, i: nat, now: int64): Option<World> {
    if i !in w.flows || !w.flows[i].Answered? then None else
    var f := w.flows[i];
    match Transact(w.state, CommitUpdate(f.r, f.pending), false, now)
    case Outcome(s, Err(_)) => Some(w.(state := s, flows := w.flows[i := Failed]))
    case Outcome(s, Ok(_)) =>
      Some(w.(state := s, shown := w.shown + {f.pending.deviceCode},
              flows := w.flows[i := Committed(f.r, f.past, f.pending.deviceCode, w.at)]))
  }

  /** The server issues a complete session that it never issued before. */
  predicate Fresh(w: World, tokens: AuthTokens) {
    ValidAuth(tokens) && tokens.expiresAt > 0 && tokens !in w.sessions
  }

  function PollStep(w: World, code: string, tokens: AuthTokens, now: int64): Option<World> {
    if !Fresh(w, tokens) then None else
    var v := w.(sessions := w.sessions + {tokens});
    match Transact(w.state, PollUpdate(code, tokens), false, now)
    case Outcome(s, Err(_)) => Some(v.(state := s))
    case Outcome(s, Ok(_)) => Some(v.(state := s, stored := w.stored + [code]))
  }

  function Effect(w: World, l: Label): Option<World> {
    match l
    case Reserve(i, now) => ReserveStep(w, i, now)
    case Respond(i, pending) => RespondStep(w, i, pending)
    case Abandon(i) => AbandonStep(w, i)
    case Commit(i, now) => CommitStep(w, i, now)
    case PollSuccess(code, tokens, now) => PollStep(w, code, tokens, now)
    case Terminal(code, now) => Some(w.(state := Transact(w.state, TerminalUpdate(code), false, now).state))
    case Resume(now) => Some(w.(state := Transact(w.state, ResumeUpdate(now), false, now).state))
    case Clear => Some(w.(state := Cleared(w.state)))
    case ClearFile => Some(w.(state := FILE_CLEARED))
    case Rotate(tokens) =>
      if w.state.auth.None? || !Fresh(w, tokens) then None
      else Some(w.(state := w.state.(auth := Some(tokens)), sessions := w.sessions + {tokens}))
  }

  function Apply(w: World, l: Label): Option<World> {
    match Effect(w, l)
    case None => None
    case Some(v) => Some(v.(at := Advanced(w, l)))
  }

  /** Any prepared store, with a flow of an earlier process possibly pending. */
  ghost predicate Init(w: World) {
    && Prepared(w.state) && w.flows == map[] && w.at == Progress(0, 0, None) && w.stored == [] && w.shown <= w.codes
    && (w.state.auth.Some? ==> w.state.auth.value in w.sessions)
    && (w.state.pending.Some? ==> w.state.pending.value.deviceCode in w.shown)
  }

  ghost function Run(w: World, steps: seq<Label>): Option<World>
    decreases |steps|
  {
    if steps == [] then Some(w) else
    match Apply(w, steps[0])
    case None => None
    case Some(v) => Run(v, steps[1..])
  }

  ghost predicate Reachable(w: World) {
    exists w0: World, steps: seq<Label> :: Init(w0) && Run(w0, steps) == Some(w)
  }

  // ---------------------------------------------------------------- the generation's cycle

  function Advance(g: uint64, n: nat): uint64 {
    if n == 0 then g else NextGeneration(Advance(g, n - 1))
  }

  lemma {:induction false} AdvanceClosed(g: uint64, n: nat)
    requires g >= 1
    ensures Advance(g, n) == 1 + Residue(g - 1 + n)
  {
    if n == 0 {
    } else {
      AdvanceClosed(g, n - 1);
      ResidueOfSum(1, g - 1 + n - 1);
    }
  }

  lemma AdvanceFromOne(n: nat)
    ensures Advance(1, n) == 1 + Residue(n)
  {
    AdvanceClosed(1, n);
  }

  lemma {:induction false} AdvanceSum(g: uint64, m: nat, n: nat)
    ensures Advance(Advance(g, m), n) == Advance(g, m + n)
  {
    if n > 0 { AdvanceSum(g, m, n - 1); }
  }

  lemma ResidueOfSum(a: nat, n: nat)
    requires a < CYCLE
    ensures Residue(a + n) == if a + Residue(n) < CYCLE then a + Residue(n) else a + Residue(n) - CYCLE
  {
  }

  /** A generation comes back exactly after full cycles of 2^64-1 bumps. */
  lemma GenerationReturns(g: uint64, n: nat)
    requires g >= 1
    ensures Advance(g, n) == g <==> Residue(n) == 0
  {
    AdvanceClosed(g, n);
    ResidueOfSum(g - 1, n);
  }

  // ---------------------------------------------------------------- invariant

  /** The file was cleared after the `since`-th bump. */
  predicate Reset(since: nat, at: Progress) {
    at.reset.Some? && at.reset.value >= since
  }

  /** A flow reserved `generation` with the bump number `since`, and the store has that generation again. */
  predicate Returned(generation: uint64, since: nat, at: Progress) {
    if Reset(since, at) then Residue(at.bumps - at.reset.value) == generation - 1
    else Residue(at.bumps - since) == 0
  }

  ghost predicate OpenOk(w: World, r: Reservation, past: Past) {
    && r.generation >= 1 && past.bumps <= w.at.bumps && past.clears <= w.at.clears
    && (r.previous.Some? ==> r.previous.value in w.sessions)
    && (!Reset(past.bumps, w.at) ==> w.state.generation == Advance(r.generation, w.at.bumps - past.bumps))
    && (past.rival.Some? ==> past.rival.value in w.shown)
    && (past.rival.Some? && past.rival.value in w.stored ==>
          && past.bumps < w.at.bumps
          && if r.previous.Some? then w.state.auth != r.previous else w.state.auth.Some? || past.clears < w.at.clears)
  }

  /** The rival's poll stored tokens too: what must have happened before the flow was committed. */
  ghost predicate BothStored(r: Reservation, past: Past, end: Progress) {
    r.previous.None? && past.clears < end.clears && (Reset(past.bumps, end) || end.bumps - past.bumps >= CYCLE)
  }

  ghost predicate CommittedOk(w: World, r: Reservation, past: Past, code: string, end: Progress) {
    && code in w.shown
    && end.bumps <= w.at.bumps && end.clears <= w.at.clears && (Reset(past.bumps, end) ==> Reset(past.bumps, w.at))
    && (past.rival.Some? ==>
          && past.rival.value in w.shown && past.rival != Some(code) && PendingCode(w.state) != past.rival
          && (past.rival.value in w.stored ==> BothStored(r, past, end)))
  }

  ghost predicate FlowOk(w: World, f: Flow) {
    match f
    case Reserved(r, past) => OpenOk(w, r, past)
    case Answered(r, past, pending) =>
      OpenOk(w, r, past) && ValidPending(pending) && pending.deviceCode in w.codes && pending.deviceCode !in w.shown
    case Committed(r, past, code, end) => CommittedOk(w, r, past, code, end)
    case Failed => true
  }

  ghost predicate CodeOf(f: Flow, code: string) {
    (f.Answered? && f.pending.deviceCode == code) || (f.Committed? && f.code == code)
  }

  ghost predicate Inv(w: World) {
    && Prepared(w.state) && w.shown <= w.codes
    && (w.state.auth.Some? ==> w.state.auth.value in w.sessions)
    && (w.at.reset.Some? ==>
          w.at.reset.value <= w.at.bumps && w.state.generation == Advance(1, w.at.bumps - w.at.reset.value))
    && (forall i <- w.flows :: FlowOk(w, w.flows[i]))
    && (forall i <- w.flows, j <- w.flows :: i != j && w.flows[i].Answered? ==> !CodeOf(w.flows[j], w.flows[i].pending.deviceCode))
    && (w.state.pending.Some? ==> w.state.pending.value.deviceCode in w.shown && w.state.pending.value.deviceCode !in w.stored)
    && (forall k :: 0 <= k < |w.stored| ==> w.stored[k] in w.shown)
    && (forall k, l :: 0 <= k < l < |w.stored| ==> w.stored[k] != w.stored[l])
  }

  // ---------------------------------------------------------------- every step keeps it

  /** The session is as before, or gone with a clear, or one that was just issued. */
  ghost predicate SessionMoves(w: World, w': World) {
    || w'.state.auth == w.state.auth
    || (w'.state.auth.None? && w.at.clears < w'.at.clears)
    || (w'.state.auth.Some? && w'.state.auth.value in w'.sessions && w'.state.auth.value !in w.sessions)
  }

  /** A step that leaves the flows alone, bumps at most as counted and never shows a new code. */
  ghost predicate SharedStep(w: World, w': World, bump: nat) {
    && Prepared(w'.state) && bump <= 1
    && w'.flows == w.flows && w'.codes == w.codes && w'.shown == w.shown && w.sessions <= w'.sessions
    && w'.at == w.at.(bumps := w.at.bumps + bump, clears := w'.at.clears) && w.at.clears <= w'.at.clears
    && w'.state.generation == (if bump == 1 then NextGeneration(w.state.generation) else w.state.generation)
    && (w'.state.pending == w.state.pending || w'.state.pending.None?)
    && SessionMoves(w, w')
    && (w'.stored == w.stored
        || (w.state.pending.Some? && bump == 1 && w'.state.pending.None?
            && w'.state.auth.Some? && w'.state.auth.value !in w.sessions
            && w'.stored == w.stored + [w.state.pending.value.deviceCode]))
  }

  lemma SharedStepKeeps(w: World, w': World, bump: nat)
    requires Inv(w) && SharedStep(w, w', bump)
    ensures Inv(w')
  {
    forall i <- w'.flows ensures FlowOk(w', w'.flows[i]) {
      SharedFlowOk(w, w', bump, w.flows[i]);
    }
  }

  lemma SharedFlowOk(w: World, w': World, bump: nat, f: Flow)
    requires FlowOk(w, f) && SharedStep(w, w', bump) && (w.at.reset.Some? ==> w.at.reset.value <= w.at.bumps)
    ensures FlowOk(w', f)
  {
  }

  lemma FileClearKeeps(w: World)
    requires Inv(w)
    ensures Inv(Apply(w, ClearFile).value)
  {
    var w' := Apply(w, ClearFile).value;
    forall i <- w'.flows ensures FlowOk(w', w'.flows[i]) {
      assert FlowOk(w, w.flows[i]);
    }
  }

  lemma PollKeeps(w: World, code: string, tokens: AuthTokens, now: int64)
    requires Inv(w) && Apply(w, PollSuccess(code, tokens, now)).Some?
    ensures Inv(Apply(w, PollSuccess(code, tokens, now)).value)
  {
    if PendingIs(w.state, code) { TransactStores(w.state, PollUpdate(code, tokens), now); }
    SharedStepKeeps(w, Apply(w, PollSuccess(code, tokens, now)).value, Bump(w, PollSuccess(code, tokens, now)));
  }

  lemma OtherKeeps(w: World, l: Label)
    requires Inv(w) && Apply(w, l).Some? && (l.Terminal? || l.Resume? || l.Clear? || l.Rotate?)
    ensures Inv(Apply(w, l).value)
  {
    match l {
      case Terminal(code, now) => TransactStores(w.state, TerminalUpdate(code), now);
      case Resume(now) => TransactStores(w.state, ResumeUpdate(now), now);
      case _ =>
    }
    SharedStepKeeps(w, Apply(w, l).value, Bump(w, l));
  }

  lemma ReserveKeeps(w: World, i: nat, now: int64)
    requires Inv(w) && Apply(w, Reserve(i, now)).Some?
    ensures Inv(Apply(w, Reserve(i, now)).value)
  {
    TransactStores(w.state, ReserveUpdate(), now);
    var w' := Apply(w, Reserve(i, now)).value;
    SharedStepKeeps(w, w'.(flows := w.flows), 1);
    forall j <- w'.flows ensures FlowOk(w', w'.flows[j]) {
      if j != i { assert FlowOk(w'.(flows := w.flows), w.flows[j]); }
    }
  }

  lemma RespondKeeps(w: World, i: nat, pending: Pending)
    requires Inv(w) && Apply(w, Respond(i, pending)).Some?
    ensures Inv(Apply(w, Respond(i, pending)).value)
  {
    RespondFlows(w, i, pending);
    forall j <- w.flows ensures !CodeOf(w.flows[j], pending.deviceCode) {
      assert FlowOk(w, w.flows[j]);
    }
  }

  lemma RespondFlows(w: World, i: nat, pending: Pending)
    requires w.shown <= w.codes && (forall j <- w.flows :: FlowOk(w, w.flows[j])) && Apply(w, Respond(i, pending)).Some?
    ensures var w' := Apply(w, Respond(i, pending)).value; forall j <- w'.flows :: FlowOk(w', w'.flows[j])
  {
    var w' := Apply(w, Respond(i, pending)).value;
    forall j <- w'.flows ensures FlowOk(w', w'.flows[j]) {
      assert FlowOk(w, w.flows[j]);
    }
  }

  lemma AbandonKeeps(w: World, i: nat)
    requires Inv(w) && Apply(w, Abandon(i)).Some?
    ensures Inv(Apply(w, Abandon(i)).value)
  {
    var w' := Apply(w, Abandon(i)).value;
    forall j <- w'.flows ensures FlowOk(w', w'.flows[j]) {
      assert FlowOk(w, w.flows[j]);
    }
  }

  /** Exactly when an initiation becomes the pending flow. */
  lemma CommitOutcome(w: World, i: nat, now: int64)
    requires Inv(w) && i in w.flows && w.flows[i].Answered?
    ensures var f := w.flows[i];
            var o := Transact(w.state, CommitUpdate(f.r, f.pending), false, now);
            && (o.result.Ok? <==> w.state.auth == f.r.previous && Returned(f.r.generation, f.past.bumps, w.at))
            && o.state == if o.result.Ok? then w.state.(pending := Some(f.pending)) else w.state
  {
    var f := w.flows[i];
    assert FlowOk(w, f);
    if Reset(f.past.bumps, w.at) {
      AdvanceFromOne(w.at.bumps - w.at.reset.value);
    } else {
      GenerationReturns(f.r.generation, w.at.bumps - f.past.bumps);
    }
    if CommitUpdate(f.r, f.pending)(w.state).Ok? {
      TransactStores(w.state, CommitUpdate(f.r, f.pending), now);
    }
  }

  lemma CommitKeeps(w: World, i: nat, now: int64)
    requires Inv(w) && Apply(w, Commit(i, now)).Some?
    ensures Inv(Apply(w, Commit(i, now)).value)
  {
    CommitApplies(w, i, now);
    if Apply(w, Commit(i, now)).value.flows[i].Failed? {
      AbandonKeeps(w, i);
    } else {
      CommittedKeeps(w, i, Apply(w, Commit(i, now)).value);
    }
  }

  lemma CommitApplies(w: World, i: nat, now: int64)
    requires Inv(w) && i in w.flows && w.flows[i].Answered?
    ensures var f := w.flows[i];
            Apply(w, Commit(i, now)) ==
              if w.state.auth == f.r.previous && Returned(f.r.generation, f.past.bumps, w.at)
              then Some(w.(state := w.state.(pending := Some(f.pending)), shown := w.shown + {f.pending.deviceCode},
                           flows := w.flows[i := Committed(f.r, f.past, f.pending.deviceCode, w.at)]))
              else Apply(w, Abandon(i))
  {
    CommitOutcome(w, i, now);
  }

  /** The flow `i` of `w` is committed in `w'`. */
  ghost predicate Commits(w: World, i: nat, w': World) {
    && i in w.flows && w.flows[i].Answered?
    && var f := w.flows[i];
    && w.state.auth == f.r.previous && Returned(f.r.generation, f.past.bumps, w.at)
    && w' == w.(state := w.state.(pending := Some(f.pending)), shown := w.shown + {f.pending.deviceCode},
                flows := w.flows[i := Committed(f.r, f.past, f.pending.deviceCode, w.at)])
  }

  lemma CommittedKeeps(w: World, i: nat, w': World)
    requires Inv(w) && Commits(w, i, w')
    ensures Inv(w')
  {
    assert FlowOk(w, w.flows[i]);
    CommittedFlow(w, i, w');
    forall j <- w'.flows ensures FlowOk(w', w'.flows[j]) {
      if j != i { OtherFlow(w, i, w', j); }
    }
    forall j <- w'.stored ensures j in w.shown && j != w.flows[i].pending.deviceCode {}
  }

  lemma CommittedFlow(w: World, i: nat, w': World)
    requires Inv(w) && Commits(w, i, w')
    ensures FlowOk(w', w'.flows[i])
  {
    assert FlowOk(w, w.flows[i]);
    if !Reset(w.flows[i].past.bumps, w.at) { FullCycle(w.at.bumps - w.flows[i].past.bumps); }
  }

  lemma OtherFlow(w: World, i: nat, w': World, j: nat)
    requires Inv(w) && Commits(w, i, w') && j in w.flows && j != i
    ensures FlowOk(w', w.flows[j])
  {
    assert FlowOk(w, w.flows[i]) && FlowOk(w, w.flows[j]);
  }

  lemma FullCycle(n: nat)
    requires Residue(n) == 0
    ensures n > 0 ==> n >= CYCLE
  {
  }

  lemma StepKeeps(w: World, l: Label)
    requires Inv(w) && Apply(w, l).Some?
    ensures Inv(Apply(w, l).value)
  {
    match l
    case Reserve(i, now) => ReserveKeeps(w, i, now);
    case Respond(i, pending) => RespondKeeps(w, i, pending);
    case Abandon(i) => AbandonKeeps(w, i);
    case Commit(i, now) => CommitKeeps(w, i, now);
    case PollSuccess(code, tokens, now) => PollKeeps(w, code, tokens, now);
    case ClearFile => FileClearKeeps(w);
    case _ => OtherKeeps(w, l);
  }

  lemma {:induction false} RunKeeps(w: World, steps: seq<Label>)
    requires Inv(w) && Run(w, steps).Some?
    ensures Inv(Run(w, steps).value)
    decreases |steps|
  {
    if steps != [] {
      StepKeeps(w, steps[0]);
      RunKeeps(Apply(w, steps[0]).value, steps[1..]);
    }
  }

  lemma ReachableInv(w: World)
    requires Reachable(w)
    ensures Inv(w)
  {
    var w0: World, steps: seq<Label> :| Init(w0) && Run(w0, steps) == Some(w);
    RunKeeps(w0, steps);
  }

  // ---------------------------------------------------------------- what the flows promise

  /** An initiation commits exactly when the session is the one at its reservation and the generation
      has come back: without a clear of the file since, when the number of bumps since is a multiple of
      2^64-1; after one, when the bumps since the last clear lead from 1 to the generation reserved.
      When it fails the store is untouched. */
  lemma CommitsExactlyWhenUndisturbed(w: World, i: nat, now: int64)
    requires Reachable(w) && i in w.flows && w.flows[i].Answered?
    ensures var f := w.flows[i];
            var w' := Apply(w, Commit(i, now)).value;
            var undisturbed := w.state.auth == f.r.previous && Returned(f.r.generation, f.past.bumps, w.at);
            && Apply(w, Commit(i, now)).Some?
            && (w'.flows[i].Committed? <==> undisturbed)
            && w'.state == if undisturbed then w.state.(pending := Some(f.pending)) else w.state
  {
    ReachableInv(w);
    CommitOutcome(w, i, now);
  }

  /** Flow `b` remembers its reservation for as long as it has not failed. */
  ghost predicate Tracks(w: World, b: nat, r: Reservation, past: Past) {
    b in w.flows && (w.flows[b].Failed? || (w.flows[b].r == r && w.flows[b].past == past))
  }

  ghost predicate Clears(steps: seq<Label>) {
    exists l <- steps :: l.Clear? || l.ClearFile?
  }

  lemma {:induction false} TracksThroughout(w: World, steps: seq<Label>, b: nat, r: Reservation, past: Past)
    requires Tracks(w, b, r, past) && Run(w, steps).Some?
    ensures var v := Run(w, steps).value;
      && Tracks(v, b, r, past) && v.at.bumps >= w.at.bumps
      && (!Clears(steps) ==> v.at.clears == w.at.clears)
      && (ClearFile !in steps ==> v.at.reset == w.at.reset)
    decreases |steps|
  {
    if steps != [] {
      var v := Apply(w, steps[0]).value;
      assert Tracks(v, b, r, past);
      TracksThroughout(v, steps[1..], b, r, past);
      assert forall l <- steps[1..] :: l in steps;
    }
  }

  /** Flow A is pending when B reserves. Whatever everybody does then, A is not pending any more once B
      is, and B becomes pending and A's poll stores tokens both only if B was reserved without a
      session, the store was cleared since, and that was the file or 2^64-1 bumps lie in between. */
  lemma OldAndNewFlowExclude(w0: World, before: seq<Label>, w1: World, a: string, b: nat, now: int64,
                             after: seq<Label>, w2: World)
    requires Init(w0) && Run(w0, before) == Some(w1) && PendingCode(w1.state) == Some(a)
    requires Run(w1, [Reserve(b, now)] + after) == Some(w2)
    requires b in w2.flows && w2.flows[b].Committed?
    ensures PendingCode(w2.state) != Some(a)
    ensures a in w2.stored ==>
              w1.state.auth.None? && Clears(after) && (ClearFile in after || w2.at.bumps - w1.at.bumps > CYCLE)
  {
    RunKeeps(w0, before);
    var steps := [Reserve(b, now)] + after;
    assert steps[1..] == after;
    TransactStores(w1.state, ReserveUpdate(), now);
    var v := Apply(w1, steps[0]).value;
    TracksThroughout(v, after, b, v.flows[b].r, v.flows[b].past);
    RunKeeps(w1, steps);
    assert FlowOk(w2, w2.flows[b]);
  }

  /** Clearing the file lets both in: `b` is reserved while `a` is pending, `a` stores its tokens, and
      signing out resets the generation to the one that `b` holds. Clearing memory would supersede it. */
  lemma FileClearLetsBothIn(a: Pending, b: Pending, tokens: AuthTokens, now: int64)
    requires ValidPending(a) && ValidPending(b) && a.deviceCode != b.deviceCode
    requires ValidAuth(tokens) && tokens.expiresAt > 0
    ensures var w := World(State(None, Some(a), 0), map[], Progress(0, 0, None), {a.deviceCode}, {a.deviceCode}, [], {});
            var first := [Reserve(0, now), Respond(0, b), PollSuccess(a.deviceCode, tokens, now)];
            && Init(w)
            && Run(w, first + [ClearFile, Commit(0, now)]).Some? && Run(w, first + [Clear, Commit(0, now)]).Some?
            && var file := Run(w, first + [ClearFile, Commit(0, now)]).value;
               var memory := Run(w, first + [Clear, Commit(0, now)]).value;
            && a.deviceCode in file.stored && file.state == State(None, Some(b), 1)
            && a.deviceCode in memory.stored && memory.state == State(None, None, 3)
  {
    var w := World(State(None, Some(a), 0), map[], Progress(0, 0, None), {a.deviceCode}, {a.deviceCode}, [], {});
    var first := [Reserve(0, now), Respond(0, b), PollSuccess(a.deviceCode, tokens, now)];
    var v := BothUnderWay(a, b, tokens, now, w, first);
    RunOn(w, first, [ClearFile, Commit(0, now)]);
    RunOn(w, first, [Clear, Commit(0, now)]);
    RunTwo(v, ClearFile, Commit(0, now));
    RunTwo(v, Clear, Commit(0, now));
  }

  lemma BothUnderWay(a: Pending, b: Pending, tokens: AuthTokens, now: int64, w: World, first: seq<Label>) returns (v: World)
    requires ValidPending(a) && ValidPending(b) && a.deviceCode != b.deviceCode
    requires ValidAuth(tokens) && tokens.expiresAt > 0
    requires w == World(State(None, Some(a), 0), map[], Progress(0, 0, None), {a.deviceCode}, {a.deviceCode}, [], {})
    requires first == [Reserve(0, now), Respond(0, b), PollSuccess(a.deviceCode, tokens, now)]
    ensures Run(w, first) == Some(v)
    ensures v == World(
      State(Some(tokens), None, 2), map[0 := Answered(Reservation(1, None), Past(1, 0, Some(a.deviceCode)), b)],
      Progress(2, 0, None), {a.deviceCode, b.deviceCode}, {a.deviceCode}, [a.deviceCode], {tokens})
  {
    var w2 := Apply(Apply(w, first[0]).value, first[1]).value;
    TransactStores(w2.state, PollUpdate(a.deviceCode, tokens), now);
    v := Apply(w2, first[2]).value;
    assert first == [first[0]] + ([first[1]] + ([first[2]] + []));
    RunOne(w, first[0], [first[1]] + ([first[2]] + []));
    RunOne(Apply(w, first[0]).value, first[1], [first[2]] + []);
    RunOne(w2, first[2], []);
  }

  lemma {:induction false} RunOn(w: World, first: seq<Label>, rest: seq<Label>)
    requires Run(w, first).Some?
    ensures Run(w, first + rest) == Run(Run(w, first).value, rest)
    decreases |first|
  {
    if first == [] {
      assert first + rest == rest;
    } else {
      assert (first + rest)[1..] == first[1..] + rest;
      RunOn(Apply(w, first[0]).value, first[1..], rest);
    }
  }

  lemma RunTwo(w: World, k: Label, l: Label)
    requires Apply(w, k).Some? && Apply(Apply(w, k).value, l).Some?
    ensures Run(w, [k, l]) == Apply(Apply(w, k).value, l)
  {
    assert [k, l] == [k] + ([l] + []);
    RunOne(w, k, [l] + []);
    RunOne(Apply(w, k).value, l, []);
  }

  lemma RunOne(w: World, l: Label, rest: seq<Label>)
    requires Apply(w, l).Some?
    ensures Run(w, [l] + rest) == Run(Apply(w, l).value, rest)
  {
    assert ([l] + rest)[1..] == rest;
  }

  /** Each device code stores tokens at most once, and never while or before it is pending again. */
  lemma CodesStoreOnce(w: World)
    requires Reachable(w)
    ensures forall k, l :: 0 <= k < l < |w.stored| ==> w.stored[k] != w.stored[l]
    ensures w.state.pending.Some? ==> w.state.pending.value.deviceCode !in w.stored
  {
    ReachableInv(w);
  }

  /** What each step does to the store: until it commits, an initiation changes nothing but the
      generation; a poll stores its tokens exactly when its code is the pending one; terminal answers
      and resumption drop exactly the flow that was answered or has expired. */
  lemma StepsTouchOnlyTheirFlow(w: World, l: Label)
    requires Reachable(w) && Apply(w, l).Some?
    ensures var s := w.state;
            var without := State(s.auth, None, NextGeneration(s.generation));
      Apply(w, l).value.state == match l
        case Reserve(_, _) => State(s.auth, s.pending, NextGeneration(s.generation))
        case Respond(_, _) => s
        case Abandon(_) => s
        case Commit(i, _) =>
          var f := w.flows[i];
          if s.auth == f.r.previous && Returned(f.r.generation, f.past.bumps, w.at)
          then State(s.auth, Some(f.pending), s.generation) else s
        case PollSuccess(code, tokens, _) =>
          if s.pending.Some? && s.pending.value.deviceCode == code
          then State(Some(tokens), None, NextGeneration(s.generation)) else s
        case Terminal(code, _) => if s.pending.Some? && s.pending.value.deviceCode == code then without else s
        case Resume(now) => if s.pending.Some? && now >= s.pending.value.expiresAt then without else s
        case Clear => State(None, None, NextGeneration(s.generation))
        case ClearFile => State(None, None, 1)
        case Rotate(tokens) => State(Some(tokens), s.pending, s.generation)
  {
    ReachableInv(w);
    match l
    case Reserve(_, now) => TransactStores(w.state, ReserveUpdate(), now);
    case Commit(i, now) => CommitOutcome(w, i, now);
    case PollSuccess(code, tokens, now) =>
      if PendingIs(w.state, code) { TransactStores(w.state, PollUpdate(code, tokens), now); }
    case Terminal(code, now) => TransactStores(w.state, TerminalUpdate(code), now);
    case Resume(now) => TransactStores(w.state, ResumeUpdate(now), now);
    case _ =>
  }

  /** A reservation remembers the new generation, the session and the flow it found. */
  lemma ReservationsRemember(w: World, i: nat, now: int64)
    requires Reachable(w) && i !in w.flows
    ensures var w' := Apply(w, Reserve(i, now));
      && w'.Some? && i in w'.value.flows
      && w'.value.flows[i] == Reserved(
           Reservation(w'.value.state.generation, w.state.auth),
           Past(w'.value.at.bumps, w.at.clears, if w.state.pending.Some? then Some(w.state.pending.value.deviceCode) else None))
  {
    ReachableInv(w);
    TransactStores(w.state, ReserveUpdate(), now);
  }

  /** Progress counts exactly the steps that advance the stored generation, and the clears. */
  lemma BumpsAreCounted(w: World, l: Label)
    requires Reachable(w) && Apply(w, l).Some?
    ensures var s, s', at := w.state, Apply(w, l).value.state, Apply(w, l).value.at;
      && (l.ClearFile? ==> at == Progress(w.at.bumps, w.at.clears + 1, Some(w.at.bumps)))
      && (l.Clear? ==> at == Progress(w.at.bumps + 1, w.at.clears + 1, w.at.reset))
      && (!l.ClearFile? && !l.Clear? ==>
            at == Progress(w.at.bumps + (if s'.generation == s.generation then 0 else 1), w.at.clears, w.at.reset))
      && (!l.ClearFile? ==> s'.generation == s.generation || s'.generation == NextGeneration(s.generation))
  {
    ReachableInv(w);
    StepsTouchOnlyTheirFlow(w, l);
  }

  /** Over a state as a file may hold it, an initiation that nobody disturbs commits exactly when
      the stored session carries an expiry: the reservation's own transaction fills in a missing
      one, and the commit then takes the filled session for somebody else's. */
  lemma MissingExpirySupersedesItself(s: State, pending: Pending, now: int64, later: int64)
    requires s.auth.Some? ==> ValidAuth(s.auth.value)
    requires s.pending.Some? ==> ValidPending(s.pending.value)
    requires ValidPending(pending)
    requires Transact(s, ReserveUpdate(), false, now).result.Ok?
    ensures var Outcome(reserved, Ok(r)) := Transact(s, ReserveUpdate(), false, now);
            Transact(reserved, CommitUpdate(r, pending), false, later).result.Ok?
            <==> (s.auth.Some? ==> s.auth.value.expiresAt > 0)
  {
    var edited := ReserveUpdate()(s).value.0;
    if s.auth.Some? && s.auth.value.expiresAt == 0 {
      PrepareAuthExact(s.auth.value, now);
    } else {
      TransactStores(s, ReserveUpdate(), now);
      var r := ReserveUpdate()(s).value.1;
      TransactStores(edited, CommitUpdate(r, pending), later);
    }
  }
}
