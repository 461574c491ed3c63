/** Signature headers per host: a cache with an expiry buffer, one shared signing call per host,
    and cancellation of that call by its last waiter. Instants are nanoseconds. */
module WebBotAuth {
  import opened Session

  const EXPIRY_BUFFER: int := 30_000_000_000

  datatype Block = Block(signature: string, input: string, agent: string, authority: string, expiresAt: string)

  /** The library functions a validation depends on: the canonical host a block is bound to, and
      RFC 3339 instants. */
  datatype Library = Library(host: string -> Option<string>, instant: string -> Option<int>)

  /** The instant until which the block may be used for `authority`, if it may be used at all. */
  function Validate(lib: Library, b: Block, authority: string, now: int): Option<int> {
    if Blank(b.signature) || Blank(b.input) || Blank(b.agent) || Blank(b.authority) || Blank(b.expiresAt) then None
    else if lib.host(b.authority) != Some(authority) then None
    else match lib.instant(b.expiresAt)
      case None => None
      case Some(at) => if now < at then Some(at) else None
  }

  /** `checkedAt` records when the block was validated; no step looks at it. */
  datatype Entry = Entry(block: Block, expiresAt: int, checkedAt: int)

  datatype Call = Call(
    authority: string, waiters: nat, completed: bool, cancelled: bool, result: Result<Entry>)

  datatype Resource = Resource(cache: map<string, Entry>, inflight: map<string, nat>, calls: map<nat, Call>)

  /** What a caller found in the critical section of `SignURL`. */
  datatype Found = Hit(entry: Entry) | Shared(call: nat) | Own(call: nat)

  predicate Usable(e: Entry, now: int) { now < e.expiresAt - EXPIRY_BUFFER }

  /** `id` names the call in case one is started. */
  function Enter(r: Resource, authority: string, now: int, id: nat): (Resource, Found)
    requires authority in r.inflight ==> r.inflight[authority] in r.calls
  {
    if authority in r.cache && Usable(r.cache[authority], now) then (r, Hit(r.cache[authority])) else
    var r := r.(cache := r.cache - {authority});
    if authority in r.inflight then
      var k := r.inflight[authority];
      (r.(calls := r.calls[k := r.calls[k].(waiters := r.calls[k].waiters + 1)]), Shared(k))
    else
      (r.(inflight := r.inflight[authority := id],
          calls := r.calls[id := Call(authority, 1, false, false, Err(Cancelled))]), Own(id))
  }

  /** A waiter leaves; the last one to be cancelled abandons the call. */
  function Release(r: Resource, k: nat, cancelled: bool): Resource
    requires k in r.calls
  {
    var call := r.calls[k];
    var left := call.(waiters := if call.waiters > 0 then call.waiters - 1 else 0);
    if cancelled && left.waiters == 0 && !left.completed then
      r.(inflight := if left.authority in r.inflight && r.inflight[left.authority] == k
                     then r.inflight - {left.authority} else r.inflight,
         calls := r.calls[k := left.(cancelled := true)])
    else r.(calls := r.calls[k := left])
  }

  /** The signing response: validated against the requested host at `now`. */
  function Fetched(lib: Library, reply: Result<Block>, authority: string, now: int): Result<Entry> {
    match reply
    case Err(e) => Err(e)
    case Ok(b) =>
      match Validate(lib, b, authority, now)
      case None => Err(InvalidArgument)
      case Some(at) => Ok(Entry(b, at, now))
  }

  /** The worker publishes its result; only the call that is still current touches the maps. */
  function Complete(r: Resource, k: nat, result: Result<Entry>, now: int): Resource
    requires k in r.calls
  {
    var a := r.calls[k].authority;
    var done := r.(calls := r.calls[k := r.calls[k].(completed := true, result := result)]);
    if a in r.inflight && r.inflight[a] == k then
      done.(inflight := r.inflight - {a},
            cache := if result.Ok? && Usable(result.value, now) then r.cache[a := result.value] else r.cache)
    else done
  }

  // ---------------------------------------------------------------- the fields and their critical sections

  /** The resource's maps; `calls` is the heap of call records, by name. */
  class WebBotAuthResource {
    const lib: Library
    var cache: map<string, Entry>
    var inflight: map<string, nat>
    var calls: map<nat, Call>

    ghost function View(): Resource
      reads this
    {
      Resource(cache, inflight, calls)
    }

    constructor (lib: Library)
      ensures View() == Resource(map[], map[], map[]) && this.lib == lib
    {
      this.lib := lib;
      cache, inflight, calls := map[], map[], map[];
    }

    method EnterSection(authority: string, now: int, id: nat) returns (found: Found)
      requires authority in inflight ==> inflight[authority] in calls
      modifies this
      ensures (View(), found) == Enter(old(View()), authority, now, id)
    {
      if authority in cache {
        var cached := cache[authority];
        if now < cached.expiresAt - EXPIRY_BUFFER {
          return Hit(cached);
        }
      }
      cache := cache - {authority};
      if authority in inflight {
        var k := inflight[authority];
        calls := calls[k := calls[k].(waiters := calls[k].waiters + 1)];
        return Shared(k);
      }
      calls := calls[id := Call(authority, 1, false, false, Err(Cancelled))];
      inflight := inflight[authority := id];
      return Own(id);
    }

    method ReleaseWaiter(k: nat, cancelled: bool)
      requires k in calls
      modifies this`calls, this`inflight
      ensures View() == Release(old(View()), k, cancelled)
    {
      var call := calls[k];
      if call.waiters > 0 {
        call := call.(waiters := call.waiters - 1);
      }
      if cancelled && call.waiters == 0 && !call.completed {
        if call.authority in inflight && inflight[call.authority] == k {
          inflight := inflight - {call.authority};
        }
        call := call.(cancelled := true);
      }
      calls := calls[k := call];
    }

    /** `checked` is the clock at validation, `now` the clock under the lock. */
    method SignSection(k: nat, reply: Result<Block>, checked: int, now: int)
      requires k in calls
      modifies this
      ensures View() == Complete(old(View()), k, Fetched(lib, reply, old(calls)[k].authority, checked), now)
    {
      var a := calls[k].authority;
      var result := Fetched(lib, reply, a, checked);
      var current := a in inflight && inflight[a] == k;
      calls := calls[k := calls[k].(completed := true, result := result)];
      if current {
        inflight := inflight - {a};
        if result.Ok? && now < result.value.expiresAt - EXPIRY_BUFFER {
          cache := cache[a := result.value];
        }
      }
    }
  }

  // ---------------------------------------------------------------- callers, interleaved

  datatype Pc = Waiting(call: nat) | Served(result: Result<Entry>, via: Option<nat>)

  /** `sampled` is the clock a caller read before it entered. */
  datatype Caller = Caller(authority: string, sampled: int, pc: Pc)

  datatype World = World(res: Resource, callers: map<nat, Caller>)

  datatype Label =
    | SignURL(caller: nat, authority: string, sampled: int, id: nat)
    | Receive(caller: nat)
    | Cancel(caller: nat)
    | Answer(call: nat, reply: Result<Block>, checked: int, now: int)

  predicate Waits(w: World, j: nat) {
    j in w.callers && w.callers[j].pc.Waiting? && w.callers[j].pc.call in w.res.calls
  }

  function Serve(w: World, j: nat, res: Resource, result: Result<Entry>, via: Option<nat>): World
    requires j in w.callers
  {
    World(res, w.callers[j := w.callers[j].(pc := Served(result, via))])
  }

  function Apply(lib: Library, w: World, l: Label): Option<World> {
    match l
    case SignURL(j, authority, sampled, id) =>
      if j in w.callers || id in w.res.calls then None
      else if authority in w.res.inflight && w.res.inflight[authority] !in w.res.calls then None
      else
        var (res, found) := Enter(w.res, authority, sampled, id);
        var pc := match found
          case Hit(e) => Served(Ok(e), None)
          case Shared(k) => Waiting(k)
          case Own(k) => Waiting(k);
        Some(World(res, w.callers[j := Caller(authority, sampled, pc)]))
    case Receive(j) =>
      if !Waits(w, j) || !w.res.calls[w.callers[j].pc.call].completed then None else
      var k := w.callers[j].pc.call;
      Some(Serve(w, j, Release(w.res, k, false), w.res.calls[k].result, Some(k)))
    case Cancel(j) =>
      // A cancelled context may win even when the result is there.
      if !Waits(w, j) then None else
      var k := w.callers[j].pc.call;
      Some(Serve(w, j, Release(w.res, k, true), Err(Cancelled), None))
    case Answer(k, reply, checked, now) =>
      if k !in w.res.calls || w.res.calls[k].completed then None else
      Some(w.(res := Complete(w.res, k, Fetched(lib, reply, w.res.calls[k].authority, checked), now)))
  }

  const START: World := World(Resource(map[], map[], map[]), map[])

  ghost function Run(lib: Library, w: World, steps: seq<Label>): Option<World>
    decreases |steps|
  {
    if steps == [] then Some(w) else
    match Apply(lib, w, steps[0])
    case None => None
    case Some(v) => Run(lib, v, steps[1..])
  }

  ghost predicate Reachable(lib: Library, w: World) {
    exists steps: seq<Label> :: Run(lib, START, steps) == Some(w)
  }

  // ---------------------------------------------------------------- invariant

  ghost function Members(w: World, k: nat): set<nat> {
    set j | j in w.callers && w.callers[j].pc == Waiting(k)
  }

  /** The entry's block was bound to this host and unexpired when it was checked. */
  ghost predicate Genuine(lib: Library, e: Entry, authority: string) {
    Validate(lib, e.block, authority, e.checkedAt) == Some(e.expiresAt)
  }

  ghost predicate CallOk(lib: Library, r: Resource, k: nat, call: Call) {
    && (!call.completed && !call.cancelled <==> call.authority in r.inflight && r.inflight[call.authority] == k)
    && (!call.completed && !call.cancelled ==> call.waiters >= 1)
    && (call.cancelled ==> call.waiters == 0)
    && (call.completed && call.result.Ok? ==> Genuine(lib, call.result.value, call.authority))
  }

  ghost predicate CallerOk(lib: Library, r: Resource, c: Caller) {
    match c.pc
    case Waiting(k) => k in r.calls && r.calls[k].authority == c.authority
    case Served(result, via) =>
      && (result.Ok? ==> Genuine(lib, result.value, c.authority))
      && (result.Ok? && via.None? ==> Usable(result.value, c.sampled))
      && (via.Some? ==> via.value in r.calls && r.calls[via.value].completed && r.calls[via.value].result == result)
  }

  ghost predicate ResourceOk(lib: Library, r: Resource) {
    && (forall a <- r.cache :: Genuine(lib, r.cache[a], a))
    && (forall a <- r.inflight :: r.inflight[a] in r.calls && r.calls[r.inflight[a]].authority == a
          && !r.calls[r.inflight[a]].completed && !r.calls[r.inflight[a]].cancelled)
    && (forall k <- r.calls :: CallOk(lib, r, k, r.calls[k]))
  }

  ghost predicate Inv(lib: Library, w: World) {
    && ResourceOk(lib, w.res)
    && (forall j <- w.callers :: CallerOk(lib, w.res, w.callers[j]))
    && (forall k <- w.res.calls :: w.res.calls[k].waiters == |Members(w, k)|)
  }

  ghost function Others(w: World, j: nat, k: nat): set<nat> {
    set i | i in w.callers && i != j && w.callers[i].pc == Waiting(k)
  }

  lemma MembersSplit(w: World, j: nat, k: nat)
    ensures |Members(w, k)| == |Others(w, j, k)| + (if j in w.callers && w.callers[j].pc == Waiting(k) then 1 else 0)
  {
    if j in w.callers && w.callers[j].pc == Waiting(k) {
      assert Members(w, k) == Others(w, j, k) + {j};
    } else {
      assert Members(w, k) == Others(w, j, k);
    }
  }

  lemma MembersMove(w: World, w': World, j: nat, k: nat)
    requires w'.callers.Keys == w.callers.Keys + {j}
    requires forall i <- w.callers :: i != j ==> w'.callers[i] == w.callers[i]
    ensures |Members(w', k)| == |Members(w, k)|
      - (if j in w.callers && w.callers[j].pc == Waiting(k) then 1 else 0)
      + (if w'.callers[j].pc == Waiting(k) then 1 else 0)
  {
    MembersSplit(w, j, k);
    MembersSplit(w', j, k);
    assert j in w'.callers;
    assert forall i :: i != j ==> (i in w'.callers <==> i in w.callers);
    assert Others(w', j, k) == Others(w, j, k);
  }

  lemma NobodyWaits(lib: Library, w: World, k: nat)
    requires forall j <- w.callers :: CallerOk(lib, w.res, w.callers[j])
    requires k !in w.res.calls
    ensures Members(w, k) == {}
  {
    forall j <- w.callers ensures w.callers[j].pc != Waiting(k) {
      assert CallerOk(lib, w.res, w.callers[j]);
    }
  }

  lemma EnterKeeps(lib: Library, w: World, l: Label)
    requires Inv(lib, w) && l.SignURL? && Apply(lib, w, l).Some?
    ensures Inv(lib, Apply(lib, w, l).value)
  {
    var w' := Apply(lib, w, l).value;
    EnterCounts(lib, w, l);
    EnterResource(lib, w.res, l.authority, l.sampled, l.id);
    forall j <- w'.callers ensures CallerOk(lib, w'.res, w'.callers[j]) {
      if j in w.callers { assert CallerOk(lib, w.res, w.callers[j]); }
    }
  }

  lemma EnterCounts(lib: Library, w: World, l: Label)
    requires Inv(lib, w) && l.SignURL? && Apply(lib, w, l).Some?
    ensures var w' := Apply(lib, w, l).value; forall k <- w'.res.calls :: w'.res.calls[k].waiters == |Members(w', k)|
  {
    var w' := Apply(lib, w, l).value;
    forall k <- w'.res.calls ensures w'.res.calls[k].waiters == |Members(w', k)| {
      MembersMove(w, w', l.caller, k);
      if k !in w.res.calls { NobodyWaits(lib, w, k); }
    }
  }

  lemma EnterResource(lib: Library, r: Resource, authority: string, now: int, id: nat)
    requires ResourceOk(lib, r) && id !in r.calls
    ensures ResourceOk(lib, Enter(r, authority, now, id).0)
  {
    var r' := Enter(r, authority, now, id).0;
    forall k <- r'.calls ensures CallOk(lib, r', k, r'.calls[k]) {
      if k in r.calls { assert CallOk(lib, r, k, r.calls[k]); }
    }
  }

  lemma ReleaseKeeps(lib: Library, w: World, l: Label)
    requires Inv(lib, w) && (l.Receive? || l.Cancel?) && Apply(lib, w, l).Some?
    ensures Inv(lib, Apply(lib, w, l).value)
  {
    var w' := Apply(lib, w, l).value;
    var mine := w.callers[l.caller].pc.call;
    assert l.caller in Members(w, mine);
    ReleaseResource(lib, w.res, mine, l.Cancel?);
    ReleaseCounts(lib, w, l);
    ReleaseCallers(lib, w, l);
  }

  lemma ReleaseCallers(lib: Library, w: World, l: Label)
    requires Inv(lib, w) && (l.Receive? || l.Cancel?) && Apply(lib, w, l).Some?
    ensures var w' := Apply(lib, w, l).value; forall i <- w'.callers :: CallerOk(lib, w'.res, w'.callers[i])
  {
    var w' := Apply(lib, w, l).value;
    assert CallOk(lib, w.res, w.callers[l.caller].pc.call, w.res.calls[w.callers[l.caller].pc.call]);
    forall i <- w'.callers ensures CallerOk(lib, w'.res, w'.callers[i]) {
      assert CallerOk(lib, w.res, w.callers[i]);
    }
  }

  lemma ReleaseCounts(lib: Library, w: World, l: Label)
    requires (forall k <- w.res.calls :: w.res.calls[k].waiters == |Members(w, k)|)
    requires (l.Receive? || l.Cancel?) && Apply(lib, w, l).Some?
    ensures var w' := Apply(lib, w, l).value; forall k <- w'.res.calls :: w'.res.calls[k].waiters == |Members(w', k)|
  {
    var w' := Apply(lib, w, l).value;
    assert l.caller in Members(w, w.callers[l.caller].pc.call);
    forall k <- w'.res.calls ensures w'.res.calls[k].waiters == |Members(w', k)| {
      MembersMove(w, w', l.caller, k);
    }
  }

  lemma ReleaseResource(lib: Library, r: Resource, k: nat, cancelled: bool)
    requires ResourceOk(lib, r) && k in r.calls && r.calls[k].waiters > 0 && (cancelled || r.calls[k].completed)
    ensures ResourceOk(lib, Release(r, k, cancelled))
  {
    var r' := Release(r, k, cancelled);
    assert CallOk(lib, r, k, r.calls[k]);
    forall i <- r'.calls ensures CallOk(lib, r', i, r'.calls[i]) {
      assert CallOk(lib, r, i, r.calls[i]);
    }
  }

  lemma AnswerKeeps(lib: Library, w: World, l: Label)
    requires Inv(lib, w) && l.Answer? && Apply(lib, w, l).Some?
    ensures Inv(lib, Apply(lib, w, l).value)
  {
    var w' := Apply(lib, w, l).value;
    assert CallOk(lib, w.res, l.call, w.res.calls[l.call]);
    forall k <- w'.res.calls ensures w'.res.calls[k].waiters == |Members(w', k)| {
      assert Members(w', k) == Members(w, k);
    }
    CompleteResource(lib, w.res, l.call, Fetched(lib, l.reply, w.res.calls[l.call].authority, l.checked), l.now);
    forall i <- w'.callers ensures CallerOk(lib, w'.res, w'.callers[i]) {
      assert CallerOk(lib, w.res, w.callers[i]);
    }
  }

  lemma CompleteResource(lib: Library, r: Resource, k: nat, result: Result<Entry>, now: int)
    requires ResourceOk(lib, r) && k in r.calls && !r.calls[k].completed
    requires result.Ok? ==> Genuine(lib, result.value, r.calls[k].authority)
    ensures ResourceOk(lib, Complete(r, k, result, now))
  {
    var r' := Complete(r, k, result, now);
    assert CallOk(lib, r, k, r.calls[k]);
    forall i <- r'.calls ensures CallOk(lib, r', i, r'.calls[i]) {
      assert CallOk(lib, r, i, r.calls[i]);
    }
  }

  lemma StepKeeps(lib: Library, w: World, l: Label)
    requires Inv(lib, w) && Apply(lib, w, l).Some?
    ensures Inv(lib, Apply(lib, w, l).value)
  {
    match l
    case SignURL(_, _, _, _) => EnterKeeps(lib, w, l);
    case Answer(_, _, _, _) => AnswerKeeps(lib, w, l);
    case _ => ReleaseKeeps(lib, w, l);
  }

  lemma {:induction false} RunKeeps(lib: Library, w: World, steps: seq<Label>)
    requires Inv(lib, w) && Run(lib, w, steps).Some?
    ensures Inv(lib, Run(lib, w, steps).value)
    decreases |steps|
  {
    if steps != [] {
      StepKeeps(lib, w, steps[0]);
      RunKeeps(lib, Apply(lib, w, steps[0]).value, steps[1..]);
    }
  }

  lemma ReachableInv(lib: Library, w: World)
    requires Reachable(lib, w)
    ensures Inv(lib, w)
  {
    var steps: seq<Label> :| Run(lib, START, steps) == Some(w);
    RunKeeps(lib, START, steps);
  }

  // ---------------------------------------------------------------- what the cache promises

  /** A signing request that is still wanted and not yet answered. */
  predicate Live(call: Call) { !call.completed && !call.cancelled }

  /** A call in flight is unfinished, not cancelled, and has at least one waiter; `waiters` is exact
      for every call; and there is at most one unfinished, uncancelled call per host. */
  lemma OneLiveCallPerHost(lib: Library, w: World)
    requires Reachable(lib, w)
    ensures forall k <- w.res.calls :: w.res.calls[k].waiters == |Members(w, k)|
    ensures forall a <- w.res.inflight :: var k := w.res.inflight[a];
      && k in w.res.calls && w.res.calls[k].authority == a && !w.res.calls[k].completed && !w.res.calls[k].cancelled
      && |Members(w, k)| >= 1
    ensures forall k1 <- w.res.calls, k2 <- w.res.calls ::
      Live(w.res.calls[k1]) && Live(w.res.calls[k2]) && w.res.calls[k1].authority == w.res.calls[k2].authority ==> k1 == k2
    ensures forall j <- w.callers :: w.callers[j].pc.Waiting? ==> Apply(lib, w, Cancel(j)).Some?
  {
    ReachableInv(lib, w);
    forall k <- w.res.calls ensures CallOk(lib, w.res, k, w.res.calls[k]) {}
    forall j <- w.callers ensures CallerOk(lib, w.res, w.callers[j]) {}
  }

  /** Work is cancelled exactly when the last of its waiters is cancelled before it completes; nobody
      ever waits for a cancelled call. */
  lemma OnlyTheLastWaiterCancels(lib: Library, w: World, l: Label, k: nat)
    requires Reachable(lib, w) && Apply(lib, w, l).Some? && k in w.res.calls
    ensures var w' := Apply(lib, w, l).value;
      && k in w'.res.calls
      && (w.res.calls[k].cancelled ==> Members(w, k) == {} && w'.res.calls[k].cancelled)
      && (!w.res.calls[k].cancelled ==>
            (w'.res.calls[k].cancelled <==>
               l.Cancel? && Members(w, k) == {l.caller} && !w.res.calls[k].completed))
      && (l.Cancel? ==>
            w'.callers == w.callers[l.caller := w.callers[l.caller].(pc := Served(Err(Cancelled), None))])
  {
    ReachableInv(lib, w);
    assert CallOk(lib, w.res, k, w.res.calls[k]);
    if l.Receive? || l.Cancel? { ReleaseCancels(lib, w, l, k); }
  }

  lemma ReleaseCancels(lib: Library, w: World, l: Label, k: nat)
    requires k in w.res.calls && w.res.calls[k].waiters == |Members(w, k)|
    requires (l.Receive? || l.Cancel?) && Apply(lib, w, l).Some?
    ensures var w' := Apply(lib, w, l).value;
      && k in w'.res.calls
      && (w'.res.calls[k].cancelled <==>
            w.res.calls[k].cancelled || (l.Cancel? && Members(w, k) == {l.caller} && !w.res.calls[k].completed))
  {
    if w.callers[l.caller].pc == Waiting(k) {
      AloneExactlyWithOneWaiter(w, l.caller, k);
    } else {
      assert l.caller !in Members(w, k);
    }
  }

  lemma AloneExactlyWithOneWaiter(w: World, j: nat, k: nat)
    requires j in w.callers && w.callers[j].pc == Waiting(k)
    ensures |Members(w, k)| == 1 <==> Members(w, k) == {j}
    ensures j in Members(w, k)
  {
    MembersSplit(w, j, k);
    if |Others(w, j, k)| == 0 { assert Members(w, k) == Others(w, j, k) + {j}; }
  }

  /** An abandoned call is inert: when it completes after all, cache and calls in flight stay as they are. */
  lemma AbandonedCallIsInert(lib: Library, w: World, k: nat, reply: Result<Block>, checked: int, now: int)
    requires Reachable(lib, w) && k in w.res.calls && w.res.calls[k].cancelled && !w.res.calls[k].completed
    ensures var w' := Apply(lib, w, Answer(k, reply, checked, now));
      && w'.Some? && w'.value.res.cache == w.res.cache && w'.value.res.inflight == w.res.inflight
      && w'.value.callers == w.callers
  {
    ReachableInv(lib, w);
    assert CallOk(lib, w.res, k, w.res.calls[k]);
  }

  /** Every block handed out, cached, joined or fresh, was bound to the caller's host and unexpired
      when it was validated; a cached one has more than 30 seconds left at the caller's time. */
  lemma BlocksAreGenuine(lib: Library, w: World, j: nat)
    requires Reachable(lib, w) && j in w.callers && w.callers[j].pc.Served? && w.callers[j].pc.result.Ok?
    ensures var e := w.callers[j].pc.result.value;
      && !Blank(e.block.signature) && !Blank(e.block.input) && !Blank(e.block.agent)
      && !Blank(e.block.authority) && !Blank(e.block.expiresAt)
      && lib.host(e.block.authority) == Some(w.callers[j].authority)
      && lib.instant(e.block.expiresAt) == Some(e.expiresAt) && e.checkedAt < e.expiresAt
      && (w.callers[j].pc.via.None? ==> w.callers[j].sampled + 30_000_000_000 < e.expiresAt)
      && (w.callers[j].pc.via.Some? ==> w.callers[j].pc.via.value in w.res.calls
                                        && w.res.calls[w.callers[j].pc.via.value].result == Ok(e))
  {
    ReachableInv(lib, w);
    assert CallerOk(lib, w.res, w.callers[j]);
  }

  /** A new signing request is made exactly when nothing usable is cached for the host and no live
      call is under way for it; otherwise the caller is served at once or joins that call. */
  lemma SignURLStartsACallExactlyWhenNeeded(lib: Library, w: World, j: nat, authority: string, sampled: int, id: nat)
    requires Reachable(lib, w) && j !in w.callers && id !in w.res.calls
    ensures Apply(lib, w, SignURL(j, authority, sampled, id)).Some?
    ensures var w' := Apply(lib, w, SignURL(j, authority, sampled, id)).value;
            var cached := authority in w.res.cache && sampled < w.res.cache[authority].expiresAt - 30_000_000_000;
            var live := exists k :: k in w.res.calls && Live(w.res.calls[k]) && w.res.calls[k].authority == authority;
      && (w'.callers[j].pc.Served? <==> cached)
      && (if cached then w'.callers[j].pc == Served(Ok(w.res.cache[authority]), None) && w'.res == w.res
          else w'.res.cache == w.res.cache - {authority})
      && (id in w'.res.calls <==> !cached && !live)
      && (w'.callers[j].pc.Waiting? ==>
            var k := w'.callers[j].pc.call;
            k in w'.res.calls && Live(w'.res.calls[k]) && w'.res.calls[k].authority == authority)
  {
    ReachableInv(lib, w);
    if authority in w.res.inflight {
      assert Live(w.res.calls[w.res.inflight[authority]]);
    }
    forall k <- w.res.calls | Live(w.res.calls[k]) && w.res.calls[k].authority == authority
      ensures authority in w.res.inflight
    {
      assert CallOk(lib, w.res, k, w.res.calls[k]);
    }
  }

  /** The reply to a live call reaches everybody who waits for it: its block exactly if all five fields
      are there, it is bound to the host and has not expired, an error otherwise. The block is cached
      exactly if more than 30 s remain. */
  lemma RepliesReachTheWaiters(lib: Library, w: World, k: nat, reply: Result<Block>, checked: int, now: int, j: nat)
    requires Reachable(lib, w) && k in w.res.calls && Live(w.res.calls[k]) && j in Members(w, k)
    ensures var a := w.res.calls[k].authority;
            var good := reply.Ok? && var b := reply.value;
              && !Blank(b.signature) && !Blank(b.input) && !Blank(b.agent) && !Blank(b.authority) && !Blank(b.expiresAt)
              && lib.host(b.authority) == Some(a)
              && lib.instant(b.expiresAt).Some? && checked < lib.instant(b.expiresAt).value;
            var result := if good then Ok(Entry(reply.value, lib.instant(reply.value.expiresAt).value, checked))
                          else Err(if reply.Ok? then InvalidArgument else reply.error);
            var answered := Apply(lib, w, Answer(k, reply, checked, now));
      && answered.Some?
      && answered.value.res.cache == (
           if good && now < result.value.expiresAt - 30_000_000_000 then w.res.cache[a := result.value] else w.res.cache)
      && var received := Apply(lib, answered.value, Receive(j));
      && received.Some? && received.value.callers[j].pc == Served(result, Some(k))
  {
    ReachableInv(lib, w);
    assert CallOk(lib, w.res, k, w.res.calls[k]);
    assert CallerOk(lib, w.res, w.callers[j]);
  }

  /** The cache has entry `e` for host `a`, and no call for `a` is in flight. */
  ghost predicate Kept(r: Resource, a: string, e: Entry) {
    a in r.cache && r.cache[a] == e && a !in r.inflight
  }

  /** A caller of host `a` sampled its clock while the entry was usable; other steps are free. */
  ghost predicate Early(l: Label, a: string, e: Entry) {
    l.SignURL? && l.authority == a ==> Usable(e, l.sampled)
  }

  /** From `w` to `w'` nothing was requested for host `a`, and its new callers were all served `e`. */
  ghost predicate ServedFromCache(w: World, w': World, a: string, e: Entry) {
    && Kept(w'.res, a, e)
    && (forall k <- w.res.calls :: k in w'.res.calls && w'.res.calls[k].authority == w.res.calls[k].authority)
    && (forall k <- w'.res.calls :: w'.res.calls[k].authority == a ==> k in w.res.calls)
    && (forall j <- w.callers :: j in w'.callers)
    && (forall j <- w'.callers :: w'.callers[j].authority == a && j !in w.callers ==>
          w'.callers[j].pc == Served(Ok(e), None))
  }

  lemma StepServesFromCache(lib: Library, w: World, l: Label, a: string, e: Entry)
    requires Kept(w.res, a, e) && Early(l, a, e) && Apply(lib, w, l).Some?
    ensures ServedFromCache(w, Apply(lib, w, l).value, a, e)
  {
  }

  lemma {:induction false} RunServesFromCache(lib: Library, w: World, steps: seq<Label>, a: string, e: Entry)
    requires Kept(w.res, a, e) && Run(lib, w, steps).Some?
    requires forall l <- steps :: Early(l, a, e)
    ensures ServedFromCache(w, Run(lib, w, steps).value, a, e)
    decreases |steps|
  {
    if steps != [] {
      var v := Apply(lib, w, steps[0]).value;
      StepServesFromCache(lib, w, steps[0], a, e);
      RunServesFromCache(lib, v, steps[1..], a, e);
      ServedInTurn(lib, w, v, steps[1..], a, e);
    }
  }

  /** A caller keeps its host, and its answer once it has one. */
  lemma {:induction false} CallerStays(lib: Library, w: World, steps: seq<Label>, j: nat)
    requires j in w.callers && Run(lib, w, steps).Some?
    ensures var w' := Run(lib, w, steps).value;
      && j in w'.callers && w'.callers[j].authority == w.callers[j].authority
      && (w.callers[j].pc.Served? ==> w'.callers[j] == w.callers[j])
    decreases |steps|
  {
    if steps != [] { CallerStays(lib, Apply(lib, w, steps[0]).value, steps[1..], j); }
  }

  lemma ServedInTurn(lib: Library, w: World, v: World, steps: seq<Label>, a: string, e: Entry)
    requires ServedFromCache(w, v, a, e) && Run(lib, v, steps).Some?
    requires ServedFromCache(v, Run(lib, v, steps).value, a, e)
    ensures ServedFromCache(w, Run(lib, v, steps).value, a, e)
  {
    var w' := Run(lib, v, steps).value;
    forall j <- w'.callers | w'.callers[j].authority == a && j !in w.callers
      ensures w'.callers[j].pc == Served(Ok(e), None)
    {
      if j in v.callers { CallerStays(lib, v, steps, j); }
    }
  }

  /** The valid answer to a live call is cached. Whatever happens afterwards, as long as no caller of
      that host samples a clock within 30 s of the expiry, no further request is made for the host
      and every caller of it, the next one included, is served this answer at once. */
  lemma AnswersAreCached(lib: Library, w: World, k: nat, b: Block, checked: int, now: int, w1: World,
                         steps: seq<Label>, w2: World, j: nat, sampled: int, id: nat)
    requires Reachable(lib, w) && k in w.res.calls && Live(w.res.calls[k])
    requires Apply(lib, w, Answer(k, Ok(b), checked, now)) == Some(w1)
    requires Validate(lib, b, w.res.calls[k].authority, checked).Some?
    requires var e := Entry(b, Validate(lib, b, w.res.calls[k].authority, checked).value, checked);
      && Usable(e, now) && Usable(e, sampled)
      && forall l <- steps :: Early(l, w.res.calls[k].authority, e)
    requires Run(lib, w1, steps) == Some(w2)
    requires j !in w2.callers && id !in w2.res.calls
    ensures var a := w.res.calls[k].authority;
            var e := Entry(b, Validate(lib, b, a, checked).value, checked);
      && ServedFromCache(w1, w2, a, e)
      && Apply(lib, w2, SignURL(j, a, sampled, id))
         == Some(w2.(callers := w2.callers[j := Caller(a, sampled, Served(Ok(e), None))]))
  {
    ReachableInv(lib, w);
    assert CallOk(lib, w.res, k, w.res.calls[k]);
    var a := w.res.calls[k].authority;
    RunServesFromCache(lib, w1, steps, a, Entry(b, Validate(lib, b, a, checked).value, checked));
  }
}
