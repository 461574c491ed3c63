/** The storage-backed token providers of many clients that share one store, as a step machine.

    Each critical section on the provider's mutex, each gate operation, each storage operation and
    each answer of the authorization server is one atomic step, and steps of different callers,
    workers and clients interleave freely. Fields named `at`, `born`, `closed`, `horizon`, `returned`
    and `rejectedAt`, and the whole of `hist` and `issued`, are history variables: no step's
    outcome looks at them. */
module Refresh {
  import opened Session

  const EXPIRY_SKEW_NS: int := 60_000_000_000

  /** `now` is the clock in epoch nanoseconds. */
  predicate NeedsRefresh(tokens: AuthTokens, now: int) {
    tokens.expiresAt > 0 && !(now < tokens.expiresAt * 1_000_000 - EXPIRY_SKEW_NS)
  }

  datatype Request = Request(force: bool, rejected: string)

  datatype Verdict = Unauthenticated | Serve(token: string) | Rotate(source: AuthTokens)

  /** The token decision, taken with the gate held and no refresh in flight. */
  function Decide(stored: Option<AuthTokens>, req: Request, now: int): Verdict {
    if stored.None? || stored.value.access == "" then Unauthenticated
    else if req.force && req.rejected != "" && req.rejected != stored.value.access then Serve(stored.value.access)
    else if !req.force && !NeedsRefresh(stored.value, now) then Serve(stored.value.access)
    else if stored.value.refresh == "" then Unauthenticated
    else Rotate(stored.value)
  }

  /** The worker's compare-and-swap on the whole token value; it captures what to hand to waiters. */
  function RefreshUpdate(source: AuthTokens, refreshed: AuthTokens): Update<AuthTokens> {
    (s: State) =>
      if s.auth.None? || s.auth.value.access == "" then Err(NotAuthenticated)
      else if s.auth != Some(source) then Ok((s, s.auth.value))
      else Ok((s.(auth := Some(refreshed)), refreshed))
  }

  /** Result of a finished call as every waiter reads it. */
  function CallResult(r: Result<AuthTokens>): Result<string> {
    match r
    case Err(e) => Err(e)
    case Ok(t) => if t.access == "" then Err(NotAuthenticated) else Ok(t.access)
  }

  // ---------------------------------------------------------------- state

  datatype Worker =
    | Unlaunched
    | Ready
    | Asked                                              // the refresh request was sent
    | Granted(refreshed: AuthTokens)                     // usable tokens received, not yet stored
    | Denied                                             // the request failed
    | Finishing(result: Result<AuthTokens>, at: nat)     // about to publish the result
    | Done(result: Result<AuthTokens>, at: nat, closed: nat)   // `done` was closed at that length of `hist`

  datatype Call = Call(source: AuthTokens, at: nat, waiters: nat, worker: Worker, leader: nat)

  datatype After =
    | Join(call: nat)
    | Lead(call: nat)
    | Give(result: Result<string>, at: nat)

  datatype Pc =
    | Started
    | WantGate
    | Holding                                            // gate held, before the second look at inflight
    | Loading                                            // gate held, before the storage load
    | Deciding(stored: Option<AuthTokens>, at: nat)      // gate held, before the third look
    | Releasing(after: After)                            // decided, gate still held
    | Launching(call: nat)                               // gate released, before the go statement
    | Waiting(call: nat)
    | Finished(result: Result<string>, at: nat, via: Option<nat>)

  datatype Caller = Caller(req: Request, born: nat, rejectedAt: Option<nat>, pc: Pc)

  datatype Client = Client(
    gate: Option<nat>,
    inflight: Option<nat>,
    calls: map<nat, Call>,
    callers: map<nat, Caller>,
    horizon: nat,                 // every session this client ever handed out is older
    returned: map<string, nat>)   // tokens its callers got, and the version each came from

  /** How a session came to exist: a login, or a refresh of a given call with a given refresh token. */
  datatype Origin = Login | Exchanged(client: nat, call: nat, sent: string)

  /** `hist` lists every value the store's session field has had; the last one is stored now. */
  datatype World = World(hist: seq<Option<AuthTokens>>, issued: map<AuthTokens, Origin>, clients: map<nat, Client>)

  function Stored(w: World): Option<AuthTokens> {
    if |w.hist| > 0 then w.hist[|w.hist| - 1] else None
  }

  // ---------------------------------------------------------------- steps

  /** A transaction may work, fail without effect, or (a directory sync) fail after its effect. */
  datatype Fault = Clean | Lost | Torn

  datatype Local =
    | Begin(caller: nat, req: Request)
    | GiveUp(caller: nat)
    | FirstLook(caller: nat)
    | TakeGate(caller: nat)
    | SecondLook(caller: nat)
    | LoadStored(caller: nat, ok: bool)
    | ThirdLook(caller: nat, now: int, id: nat)
    | Release(caller: nat)
    | Launch(caller: nat)
    | Collect(caller: nat)
    | Leave(caller: nat)
    | Send(call: nat)
    | Deny(call: nat)
    | Reject(call: nat)
    | Reload(call: nat, ok: bool)
    | Finish(call: nat)

  datatype Label =
    | Inside(client: nat, step: Local)
    | Grant(client: nat, call: nat, tokens: AuthTokens)
    | Commit(client: nat, call: nat, fault: Fault)
    | SignIn(tokens: AuthTokens)
    | SignOut

  function Goto(c: Client, j: nat, pc: Pc): Client
    requires j in c.callers
  {
    c.(callers := c.callers[j := c.callers[j].(pc := pc)])
  }

  function Work(c: Client, k: nat, worker: Worker): Client
    requires k in c.calls
  {
    c.(calls := c.calls[k := c.calls[k].(worker := worker)])
  }

  /** `waiters++` on the call in flight. */
  function Joined(call: Call): Call { call.(waiters := call.waiters + 1) }

  /** `waiters--` for a caller that stops waiting. */
  function Left(call: Call): Call { if call.waiters > 0 then call.(waiters := call.waiters - 1) else call }

  function JoinInflight(c: Client, j: nat, pc: Pc): Client
    requires j in c.callers && c.inflight.Some? && c.inflight.value in c.calls
  {
    var k := c.inflight.value;
    Goto(c.(calls := c.calls[k := Joined(c.calls[k])]), j, pc)
  }

  /** The third critical section. */
  function ThirdSection(c: Client, j: nat, now: int, id: nat): Client
    requires j in c.callers && c.callers[j].pc.Deciding?
    requires c.inflight.Some? ==> c.inflight.value in c.calls
  {
    var me := c.callers[j];
    if c.inflight.Some? then JoinInflight(c, j, Releasing(Join(c.inflight.value)))
    else match Decide(me.pc.stored, me.req, now)
      case Unauthenticated => Goto(c, j, Releasing(Give(Err(NotAuthenticated), 0)))
      case Serve(token) => Goto(c, j, Releasing(Give(Ok(token), me.pc.at))).(horizon := me.pc.at + 1)
      case Rotate(source) =>
        Goto(c, j, Releasing(Lead(id))).(
        inflight := Some(id),
        calls := c.calls[id := Call(source, me.pc.at, 1, Unlaunched, j)])
  }

  /** A caller ends; a token it got is from now on one that came from this client. */
  function Conclude(c: Client, j: nat, r: Result<string>, at: nat, via: Option<nat>): Client
    requires j in c.callers
  {
    var done := Goto(c, j, Finished(r, at, via));
    if r.Ok? then done.(returned := done.returned[r.value := at]) else done
  }

  // Each function below is one atomic step of a caller or of a worker; None says it is not enabled.

  function BeginStep(hist: seq<Option<AuthTokens>>, c: Client, j: nat, req: Request): Option<Client>
    requires |hist| > 0
  {
    if j in c.callers then None else
    var from := if req.rejected in c.returned then Some(c.returned[req.rejected]) else None;
    Some(c.(callers := c.callers[j := Caller(req, |hist| - 1, from, Started)]))
  }

  function GiveUpStep(c: Client, j: nat): Option<Client> {
    if j !in c.callers || !(c.callers[j].pc.Started? || c.callers[j].pc.WantGate?) then None else
    Some(Conclude(c, j, Err(Cancelled), 0, None))
  }

  function FirstLookStep(c: Client, j: nat): Option<Client> {
    if j !in c.callers || !c.callers[j].pc.Started? then None
    else if c.inflight.None? then Some(Goto(c, j, WantGate))
    else if c.inflight.value in c.calls then Some(JoinInflight(c, j, Waiting(c.inflight.value)))
    else None
  }

  function TakeGateStep(c: Client, j: nat): Option<Client> {
    if j !in c.callers || !c.callers[j].pc.WantGate? || c.gate.Some? then None else
    Some(Goto(c, j, Holding).(gate := Some(j)))
  }

  function SecondLookStep(c: Client, j: nat): Option<Client> {
    if j !in c.callers || !c.callers[j].pc.Holding? then None
    else if c.inflight.None? then Some(Goto(c, j, Loading))
    else if c.inflight.value in c.calls then Some(JoinInflight(c, j, Releasing(Join(c.inflight.value))))
    else None
  }

  function LoadStep(hist: seq<Option<AuthTokens>>, c: Client, j: nat, ok: bool): Option<Client>
    requires |hist| > 0
  {
    if j !in c.callers || !c.callers[j].pc.Loading? then None
    else if ok then Some(Goto(c, j, Deciding(hist[|hist| - 1], |hist| - 1)))
    else Some(Goto(c, j, Releasing(Give(Err(Storage), 0))))
  }

  function ThirdLookStep(c: Client, j: nat, now: int, id: nat): Option<Client> {
    if j !in c.callers || !c.callers[j].pc.Deciding? || id in c.calls then None
    else if c.inflight.Some? && c.inflight.value !in c.calls then None
    else Some(ThirdSection(c, j, now, id))
  }

  function ReleaseStep(c: Client, j: nat): Option<Client> {
    if j !in c.callers || !c.callers[j].pc.Releasing? then None else
    var open := c.(gate := None);
    match c.callers[j].pc.after
    case Join(k) => Some(Goto(open, j, Waiting(k)))
    case Lead(k) => Some(Goto(open, j, Launching(k)))
    case Give(r, at) => Some(Conclude(open, j, r, at, None))
  }

  function LaunchStep(c: Client, j: nat): Option<Client> {
    if j !in c.callers || !c.callers[j].pc.Launching? || c.callers[j].pc.call !in c.calls then None else
    var k := c.callers[j].pc.call;
    Some(Work(Goto(c, j, Waiting(k)), k, Ready))
  }

  predicate WaitsOn(c: Client, j: nat) {
    j in c.callers && c.callers[j].pc.Waiting? && c.callers[j].pc.call in c.calls
  }

  function CollectStep(c: Client, j: nat): Option<Client> {
    if !WaitsOn(c, j) then None else
    var k := c.callers[j].pc.call;
    if !c.calls[k].worker.Done? then None else
    Some(Conclude(c, j, CallResult(c.calls[k].worker.result), c.calls[k].worker.at, Some(k)))
  }

  /** A cancelled waiter looks at `done` once more before it leaves. */
  function LeaveStep(c: Client, j: nat): Option<Client> {
    if !WaitsOn(c, j) then None else
    var k := c.callers[j].pc.call;
    if c.calls[k].worker.Done? then None else
    Some(Conclude(c.(calls := c.calls[k := Left(c.calls[k])]), j, Err(Cancelled), 0, Some(k)))
  }

  function SendStep(c: Client, k: nat): Option<Client> {
    if k !in c.calls || !c.calls[k].worker.Ready? then None else Some(Work(c, k, Asked))
  }

  /** The request failed; a blank refresh token is refused before anything is sent, hence Ready. */
  function DenyStep(c: Client, k: nat): Option<Client> {
    if k !in c.calls || !(c.calls[k].worker.Asked? || c.calls[k].worker.Ready?) then None else Some(Work(c, k, Denied))
  }

  /** The server answered, but with unusable credentials. */
  function RejectStep(c: Client, k: nat): Option<Client> {
    if k !in c.calls || !c.calls[k].worker.Asked? then None else Some(Work(c, k, Finishing(Err(Malformed), 0)))
  }

  /** After a failure, a session somebody else stored in the meantime is preferred to the error. */
  function ReloadStep(hist: seq<Option<AuthTokens>>, c: Client, k: nat, ok: bool): Option<Client>
    requires |hist| > 0
  {
    if k !in c.calls || !c.calls[k].worker.Denied? then None else
    var now := hist[|hist| - 1];
    if ok && now.Some? && now.value.access != "" && now.value != c.calls[k].source
    then Some(Work(c, k, Finishing(Ok(now.value), |hist| - 1)))
    else Some(Work(c, k, Finishing(Err(Network), 0)))
  }

  function FinishStep(hist: seq<Option<AuthTokens>>, c: Client, k: nat): Option<Client> {
    if k !in c.calls || !c.calls[k].worker.Finishing? then None else
    var done := Work(c, k, Done(c.calls[k].worker.result, c.calls[k].worker.at, |hist|)).(horizon := |hist|);
    Some(if c.inflight == Some(k) then done.(inflight := None) else done)
  }

  function LocalStep(hist: seq<Option<AuthTokens>>, c: Client, step: Local): Option<Client>
    requires |hist| > 0
  {
    match step
    case Begin(j, req) => BeginStep(hist, c, j, req)
    case GiveUp(j) => GiveUpStep(c, j)
    case FirstLook(j) => FirstLookStep(c, j)
    case TakeGate(j) => TakeGateStep(c, j)
    case SecondLook(j) => SecondLookStep(c, j)
    case LoadStored(j, ok) => LoadStep(hist, c, j, ok)
    case ThirdLook(j, now, id) => ThirdLookStep(c, j, now, id)
    case Release(j) => ReleaseStep(c, j)
    case Launch(j) => LaunchStep(c, j)
    case Collect(j) => CollectStep(c, j)
    case Leave(j) => LeaveStep(c, j)
    case Send(k) => SendStep(c, k)
    case Deny(k) => DenyStep(c, k)
    case Reject(k) => RejectStep(c, k)
    case Reload(k, ok) => ReloadStep(hist, c, k, ok)
    case Finish(k) => FinishStep(hist, c, k)
  }

  /** What `RefreshUpdate` does to the session field, and the call's result. */
  function Swap(w: World, source: AuthTokens, refreshed: AuthTokens, fault: Fault)
    : (seq<Option<AuthTokens>>, Worker)
    requires |w.hist| > 0
  {
    var stored := Stored(w);
    if fault.Lost? then (w.hist, Finishing(Err(Storage), 0))
    else if stored.None? || stored.value.access == "" then (w.hist, Finishing(Err(NotAuthenticated), 0))
    else if stored != Some(source) then
      (w.hist, if fault.Clean? then Finishing(Ok(stored.value), |w.hist| - 1) else Finishing(Err(Storage), 0))
    else
      (w.hist + [Some(refreshed)],
       if fault.Clean? then Finishing(Ok(refreshed), |w.hist|) else Finishing(Err(Storage), 0))
  }

  /** The server never issues an access token or a refresh token twice. */
  predicate Fresh(w: World, a: AuthTokens) {
    && ValidAuth(a) && a.expiresAt > 0
    && forall b <- w.issued :: b.access != a.access && b.refresh != a.refresh
  }

  function GrantStep(w: World, p: nat, k: nat, a: AuthTokens): Option<World> {
    if p !in w.clients || k !in w.clients[p].calls || !w.clients[p].calls[k].worker.Asked? || !Fresh(w, a) then None else
    var c := w.clients[p];
    Some(w.(issued := w.issued[a := Exchanged(p, k, c.calls[k].source.refresh)],
            clients := w.clients[p := Work(c, k, Granted(a))]))
  }

  function CommitStep(w: World, p: nat, k: nat, fault: Fault): Option<World>
    requires |w.hist| > 0
  {
    if p !in w.clients || k !in w.clients[p].calls || !w.clients[p].calls[k].worker.Granted? then None else
    var c := w.clients[p];
    var (hist, worker) := Swap(w, c.calls[k].source, c.calls[k].worker.refreshed, fault);
    Some(w.(hist := hist, clients := w.clients[p := Work(c, k, worker)]))
  }

  function Apply(w: World, l: Label): Option<World> {
    if |w.hist| == 0 then None else
    match l
    case Inside(p, step) =>
      if p !in w.clients then None else
      (match LocalStep(w.hist, w.clients[p], step)
       case None => None
       case Some(c) => Some(w.(clients := w.clients[p := c])))
    case Grant(p, k, a) => GrantStep(w, p, k, a)
    case Commit(p, k, fault) => CommitStep(w, p, k, fault)
    case SignIn(a) =>
      if !Fresh(w, a) then None else
      Some(w.(hist := w.hist + [Some(a)], issued := w.issued[a := Login]))
    case SignOut => Some(w.(hist := w.hist + [None]))
  }

  const IDLE := Client(None, None, map[], map[], 0, map[])

  /** Any number of idle clients over a store that is empty or holds one earlier session. */
  ghost predicate Init(w: World) {
    && |w.hist| == 1
    && (w.hist[0].Some? ==> ValidAuth(w.hist[0].value) && w.hist[0].value.expiresAt > 0)
    && w.issued == (if w.hist[0].Some? then map[w.hist[0].value := Login] else map[])
    && forall p <- w.clients :: w.clients[p] == IDLE
  }

  /** The world after a list of steps, or nothing when some step was not enabled. */
  ghost function Run(w: World, steps: seq<Label>): Option<World>
    decreases |steps|
  {
    if steps == [] then Some(w) else
    match Apply(w, steps[0])
    case None => None
    case Some(v) => Run(v, steps[1..])
  }

  ghost predicate Reachable(w: World) {
    exists w0: World, steps: seq<Label> :: Init(w0) && Run(w0, steps) == Some(w)
  }
}
