/** The blocking device-flow operations, with the server's replies and the passing of time as inputs. */
module Auth {
  import opened Session
  import opened DeviceFlow
  import opened MemoryStore
  import Expiry

  /** Seconds in nanoseconds, without overflow. */
  function Ns(seconds: int): int { seconds * 1_000_000_000 }

  /** What one token request came back with. */
  datatype Reply =
    | Unreachable
    | Undecodable
    | Tokens(tokens: AuthTokens)
    | Refused(status: nat, oauthCode: string)

  /** The fields of a device authorization response that parsed as JSON. */
  datatype InitWire = InitWire(
    deviceCode: string, userCode: string, uri: string, completeUri: string, expiresIn: int64, interval: int64)

  predicate WellFormed(w: InitWire) {
    && w.deviceCode != "" && w.userCode != "" && w.uri != "" && w.completeUri != ""
    && w.expiresIn > 0 && w.interval > 0 && Ns(w.expiresIn) <= MAX_INT64
  }

  /** How a single poll ends; `Expired` and `Denied` are terminal. */
  datatype Poll =
    | Authorized(tokens: AuthTokens)
    | StillPending
    | SlowDown
    | Expired
    | Denied
    | Broken(error: Error)

  /** One turn of the polling loop. The context ends while it waits (`cancelled`), while it uses the
      store, or afterwards; the timer fires `late` and the request `took` so long, in nanoseconds.
      `others` is what other clients have done to the store by then. */
  datatype Round = Round(
    cancelled: bool, storeCancelled: bool, cancelledAfter: bool, late: nat, took: nat, reply: Reply, now: int64,
    others: State -> State)

  /** What other clients do to the store: any number of transactions. */
  ghost predicate Harmless(others: State -> State) {
    forall s :: Prepared(s) ==> Prepared(others(s))
  }

  /** The store after other clients used it in each of the first n rounds. */
  function Others(s: State, script: seq<Round>, n: nat): State
    requires n <= |script|
  {
    if n == 0 then s else script[n - 1].others(Others(s, script, n - 1))
  }

  function Sort(reply: Reply): Poll {
    match reply
    case Unreachable => Broken(Network)
    case Undecodable => Broken(Malformed)
    case Tokens(t) => Authorized(t)
    case Refused(status, code) =>
      if status != 400 then Broken(Network)
      else if code == "authorization_pending" then StillPending
      else if code == "slow_down" then SlowDown
      else if code == "expired_token" then Expired
      else if code == "access_denied" then Denied
      else Broken(Network)
  }

  predicate IsSlow(r: Round) { Sort(r.reply).SlowDown? }

  /** The reply leaves the flow undecided: the loop goes on. */
  predicate Continues(r: Round) { IsSlow(r) || Sort(r.reply).StillPending? }

  /** How many of the first n replies asked to slow down. */
  function SlowDowns(script: seq<Round>, n: nat): nat
    requires n <= |script|
  {
    if n == 0 then 0 else SlowDowns(script, n - 1) + if IsSlow(script[n - 1]) then 1 else 0
  }

  /** The interval of the request with index n, in nanoseconds. */
  function IntervalAt(interval: int, script: seq<Round>, n: nat): int
    requires n <= |script|
  {
    Ns(interval + 5 * SlowDowns(script, n))
  }

  /** A timer for the shorter of the two; one that is not positive fires at once. */
  function Waited(pause: int, remaining: int): (wait: int)
    ensures wait == 0 || 0 < wait == pause <= remaining || 0 < wait == remaining < pause
    ensures wait == 0 <==> pause <= 0 || remaining <= 0
  {
    var wait := if pause <= remaining then pause else remaining;
    if wait > 0 then wait else 0
  }

  /** The loop is free to wait for the request with index n: at the start, or after the last reply. */
  function FreeAt(requests: seq<int>, start: int, script: seq<Round>, n: nat): int
    requires n <= |requests| <= |script|
  {
    if n == 0 then start else requests[n - 1] + script[n - 1].took
  }

  /** When the timer of the request with index n fires. */
  function DueAt(requests: seq<int>, start: int, interval: int, script: seq<Round>, n: nat): int
    requires n <= |requests| <= |script| && n < |script|
  {
    FreeAt(requests, start, script, n) + IntervalAt(interval, script, n) + script[n].late
  }

  ghost predicate InTime(requests: seq<int>, start: int, expiry: int, interval: int, script: seq<Round>, n: nat)
    requires n < |requests| <= |script|
  {
    requests[n] < expiry && requests[n] == DueAt(requests, start, interval, script, n)
  }

  /** Each request waits the full interval since the one before (or the start), and none is sent at or after expiry. */
  ghost predicate Scheduled(requests: seq<int>, start: int, expiry: int, interval: int, script: seq<Round>) {
    |requests| <= |script| && forall n :: 0 <= n < |requests| ==> InTime(requests, start, expiry, interval, script, n)
  }

  /** What one turn of the loop comes to: no request any more, a last one, or one more and then the
      next turn with this pause and clock. */
  datatype Turn = Stop | Last(at: int) | More(at: int, pause: int64, clock: int)

  function TakeTurn(pause: int64, clock: int, expiry: int, round: Round): Turn {
    var at := clock + Waited(pause, expiry - clock) + round.late;
    if clock >= expiry || round.cancelled || at >= expiry then Stop
    else if !Continues(round) then Last(at)
    else More(at, Lengthened(pause, round), at + round.took)
  }

  /** When token requests are sent, as the loop decides it from a round on: `pause` is a machine
      integer and the context ends in the first round after the script. */
  function RequestTimes(sent: seq<int>, pause: int64, clock: int, expiry: int, script: seq<Round>): seq<int>
    requires |sent| <= |script|
    decreases |script| - |sent|
  {
    if |sent| == |script| then sent else
    match TakeTurn(pause, clock, expiry, script[|sent|])
    case Stop => sent
    case Last(at) => sent + [at]
    case More(at, longer, next) => RequestTimes(sent + [at], longer, next, expiry, script)
  }

  /** The last reply, if there is one, left the flow undecided. */
  predicate Undecided(requests: seq<int>, script: seq<Round>)
    requires |requests| <= |script|
  {
    requests == [] || Continues(script[|requests| - 1])
  }

  /** No request is sent at or after the expiry, and only undecided replies lead to another one. */
  ghost predicate InTimeFrom(from: nat, requests: seq<int>, expiry: int, script: seq<Round>)
    requires |requests| <= |script|
  {
    && (forall n :: from <= n < |requests| ==> requests[n] < expiry)
    && (forall n :: from <= n < |requests| - 1 ==> Continues(script[n]))
  }

  lemma {:induction false} TimesInTime(sent: seq<int>, pause: int64, clock: int, expiry: int, script: seq<Round>)
    requires |sent| <= |script|
    ensures var times := RequestTimes(sent, pause, clock, expiry, script);
      && sent <= times && |times| <= |script|
      && InTimeFrom(|sent|, times, expiry, script)
    decreases |script| - |sent|
  {
    if |sent| < |script| {
      match TakeTurn(pause, clock, expiry, script[|sent|])
      case Stop =>
      case Last(at) => assert at < expiry;
      case More(at, longer, next) =>
        assert at < expiry && Continues(script[|sent|]);
        TimesInTime(sent + [at], longer, next, expiry, script);
    }
  }

  function Lengthened(pause: int64, round: Round): int64 {
    if IsSlow(round) then Wrap64(pause + Ns(5)) else pause
  }

  // ---------------------------------------------------------------- when the schedule is kept

  /** The nanoseconds that n requests take at least when all of them are told to slow down. */
  function Span(interval: int, n: nat): int {
    if n == 0 then 0 else Span(interval, n - 1) + Ns(interval + 5 * (n - 1))
  }

  lemma {:induction false} SpanClosed(interval: int, n: nat)
    ensures 2 * Span(interval, n) == Ns(2 * n * interval + 5 * n * (n - 1))
  {
    if n > 0 {
      SpanClosed(interval, n - 1);
      assert 2 * n * interval + 5 * n * (n - 1)
          == 2 * (n - 1) * interval + 5 * (n - 1) * (n - 2) + 2 * (interval + 5 * (n - 1));
    }
  }

  /** How many slow-downs make the interval overflow: it fits in int64 nanoseconds before that many. */
  function SlowDownsToOverflow(interval: int64): nat {
    if Ns(interval) > MAX_INT64 then 0 else (MAX_INT64 / 1_000_000_000 - interval) / 5 + 1
  }

  lemma FitsBefore(interval: int64, k: nat)
    requires interval > 0
    ensures Ns(interval + 5 * k) <= MAX_INT64 <==> k < SlowDownsToOverflow(interval)
  {
  }

  /** The device code expires before the interval can overflow, or an interval that is too long from
      the start happens to wrap to one that outlasts the code. */
  predicate KeepsPace(interval: int64, lifetime: int)
    requires interval > 0
  {
    || lifetime <= 0
    || (if Ns(interval) > MAX_INT64 then Wrap64(Ns(interval)) >= lifetime
        else Span(interval, SlowDownsToOverflow(interval)) >= lifetime)
  }

  /** The loop has kept its schedule so far and can go on keeping it. */
  ghost predicate Paced(requests: seq<int>, pause: int64, clock: int, start: int, expiry: int, interval: int64, script: seq<Round>) {
    && Scheduled(requests, start, expiry, interval, script)
    && clock == FreeAt(requests, start, script, |requests|)
    && var k := SlowDowns(script, |requests|);
    && k <= SlowDownsToOverflow(interval)
    && clock - start >= Span(interval, k)
    && (k < SlowDownsToOverflow(interval) ==> pause == IntervalAt(interval, script, |requests|))
    && (SlowDownsToOverflow(interval) == 0 ==> requests == [] && pause == Wrap64(Ns(interval)))
  }

  lemma PacedAtFirst(start: int, expiry: int, interval: int64, script: seq<Round>)
    requires interval > 0
    ensures Paced([], Wrap64(Ns(interval)), start, start, expiry, interval, script)
  {
  }

  /** A request that the loop sends is due by then, and one that is too late was due too late. */
  lemma PacedMeansDue(requests: seq<int>, pause: int64, clock: int, start: int, expiry: int, interval: int64, script: seq<Round>)
    requires interval > 0 && KeepsPace(interval, expiry - start)
    requires |requests| < |script| && Paced(requests, pause, clock, start, expiry, interval, script)
    ensures var at := clock + Waited(pause, expiry - clock) + script[|requests|].late;
            var due := DueAt(requests, start, interval, script, |requests|);
      && (clock >= expiry || at >= expiry ==> due >= expiry)
      && (clock < expiry && at < expiry ==> at == due && SlowDowns(script, |requests|) < SlowDownsToOverflow(interval))
  {
    var k := SlowDowns(script, |requests|);
    FitsBefore(interval, k);
    FitsBefore(interval, 0);
    if k < SlowDownsToOverflow(interval) {
      assert pause == IntervalAt(interval, script, |requests|) > 0;
    } else if k > 0 {
      SpanGrows(interval, k, k);
      assert clock >= expiry;
    } else {
      assert clock == start && clock + Waited(pause, expiry - clock) >= expiry;
    }
  }

  lemma PacedStep(requests: seq<int>, pause: int64, clock: int, start: int, expiry: int, interval: int64, script: seq<Round>)
    requires interval > 0 && KeepsPace(interval, expiry - start)
    requires |requests| < |script| && Paced(requests, pause, clock, start, expiry, interval, script) && clock < expiry
    requires clock + Waited(pause, expiry - clock) + script[|requests|].late < expiry
    ensures var round := script[|requests|];
            var at := clock + Waited(pause, expiry - clock) + round.late;
            Paced(requests + [at], Lengthened(pause, round), at + round.took, start, expiry, interval, script)
  {
    var round := script[|requests|];
    var at := clock + Waited(pause, expiry - clock) + round.late;
    PacedMeansDue(requests, pause, clock, start, expiry, interval, script);
    OneMore(requests, at, start, expiry, interval, script);
    var k := SlowDowns(script, |requests|);
    FitsBefore(interval, k);
    FitsBefore(interval, k + 1);
  }

  /** A turn of a loop that is in pace leaves it in pace, or ends it there. */
  lemma PacedTurn(sent: seq<int>, pause: int64, clock: int, start: int, expiry: int, interval: int64, script: seq<Round>)
    requires interval > 0 && KeepsPace(interval, expiry - start)
    requires |sent| < |script| && Paced(sent, pause, clock, start, expiry, interval, script)
    ensures match TakeTurn(pause, clock, expiry, script[|sent|])
      case Stop => KeptTo(sent, start, expiry, interval, script)
      case Last(at) => KeptTo(sent + [at], start, expiry, interval, script)
      case More(at, longer, next) =>
        Undecided(sent + [at], script) && Paced(sent + [at], longer, next, start, expiry, interval, script)
  {
    PacedMeansDue(sent, pause, clock, start, expiry, interval, script);
    if !TakeTurn(pause, clock, expiry, script[|sent|]).Stop? {
      PacedStep(sent, pause, clock, start, expiry, interval, script);
    }
  }

  lemma {:induction false} PacedTimes(sent: seq<int>, pause: int64, clock: int, start: int, expiry: int, interval: int64, script: seq<Round>)
    requires interval > 0 && KeepsPace(interval, expiry - start)
    requires |sent| <= |script| && Paced(sent, pause, clock, start, expiry, interval, script)
    ensures KeptTo(RequestTimes(sent, pause, clock, expiry, script), start, expiry, interval, script)
    decreases |script| - |sent|
  {
    if |sent| < |script| {
      PacedTurn(sent, pause, clock, start, expiry, interval, script);
      match TakeTurn(pause, clock, expiry, script[|sent|])
      case Stop =>
      case Last(_) =>
      case More(at, longer, next) => PacedTimes(sent + [at], longer, next, start, expiry, interval, script);
    }
  }

  /** The requests are on schedule, and the one that was not sent any more was due too late. */
  ghost predicate KeptTo(times: seq<int>, start: int, expiry: int, interval: int, script: seq<Round>) {
    && Scheduled(times, start, expiry, interval, script)
    && (|times| < |script| && Undecided(times, script) && !script[|times|].cancelled ==>
          DueAt(times, start, interval, script, |times|) >= expiry)
  }

  lemma TimesAreRight(start: int, expiry: int, interval: int64, script: seq<Round>)
    requires interval > 0
    ensures var times := RequestTimes([], Wrap64(Ns(interval)), start, expiry, script);
      && |times| <= |script|
      && InTimeFrom(0, times, expiry, script)
      && (KeepsPace(interval, expiry - start) ==> KeptTo(times, start, expiry, interval, script))
  {
    TimesInTime([], Wrap64(Ns(interval)), start, expiry, script);
    if KeepsPace(interval, expiry - start) {
      PacedAtFirst(start, expiry, interval, script);
      PacedTimes([], Wrap64(Ns(interval)), start, start, expiry, interval, script);
    }
  }

  const SLOW := Round(false, false, false, 0, 0, Refused(400, "slow_down"), 0, s => s)

  /** n rounds that come back at once with the demand to slow down. */
  function AllSlow(n: nat): seq<Round> { seq(n, _ => SLOW) }

  lemma {:induction false} AllSlowCounts(m: nat, n: nat)
    requires n <= m
    ensures SlowDowns(AllSlow(m), n) == n
  {
    if n > 0 { AllSlowCounts(m, n - 1); }
  }

  /** The state of a loop that was told to slow down every time so far. */
  ghost predicate Slowed(sent: seq<int>, pause: int64, clock: int, start: int, interval: int64) {
    && pause == Wrap64(Ns(interval + 5 * |sent|))
    && clock == start + Span(interval, |sent|)
    && (|sent| > 0 ==> sent[|sent| - 1] == clock)
  }

  /** Told to slow down as often as it takes to overflow, the loop sends its next request too early. */
  lemma {:induction false} SlowedOutOfPace(sent: seq<int>, pause: int64, clock: int, start: int, expiry: int, interval: int64, script: seq<Round>)
    requires interval > 0 && !KeepsPace(interval, expiry - start)
    requires |sent| <= SlowDownsToOverflow(interval) && script == AllSlow(SlowDownsToOverflow(interval) + 1)
    requires Slowed(sent, pause, clock, start, interval)
    ensures !Scheduled(RequestTimes(sent, pause, clock, expiry, script), start, expiry, interval, script)
    decreases SlowDownsToOverflow(interval) - |sent|
  {
    if |sent| == SlowDownsToOverflow(interval) {
      SlowedTooEarly(sent, pause, clock, start, expiry, interval, script);
    } else {
      var next, longer := SlowedOnTime(sent, pause, clock, start, expiry, interval, script);
      SlowedOutOfPace(sent + [next], longer, next, start, expiry, interval, script);
    }
  }

  lemma SlowedOnTime(sent: seq<int>, pause: int64, clock: int, start: int, expiry: int, interval: int64, script: seq<Round>)
    returns (next: int, longer: int64)
    requires interval > 0 && !KeepsPace(interval, expiry - start)
    requires |sent| < SlowDownsToOverflow(interval) && |sent| < |script| && script[|sent|] == SLOW
    requires Slowed(sent, pause, clock, start, interval)
    ensures Slowed(sent + [next], longer, next, start, interval)
    ensures RequestTimes(sent, pause, clock, expiry, script) == RequestTimes(sent + [next], longer, next, expiry, script)
  {
    next, longer := clock + pause, Wrap64(pause + Ns(5));
    SlowedNext(sent, pause, clock, start, expiry, interval);
    SlowTurn(pause, clock, expiry);
    assert TakeTurn(pause, clock, expiry, script[|sent|]) == More(next, longer, next);
  }

  lemma SlowedNext(sent: seq<int>, pause: int64, clock: int, start: int, expiry: int, interval: int64)
    requires interval > 0 && !KeepsPace(interval, expiry - start) && |sent| < SlowDownsToOverflow(interval)
    requires Slowed(sent, pause, clock, start, interval)
    ensures pause > 0 && clock + pause < expiry
    ensures Slowed(sent + [clock + pause], Wrap64(pause + Ns(5)), clock + pause, start, interval)
  {
    FitsBefore(interval, 0);
    FitsBefore(interval, |sent|);
    SpanGrows(interval, |sent| + 1, SlowDownsToOverflow(interval));
  }

  lemma SlowTurn(pause: int64, clock: int, expiry: int)
    requires pause > 0 && clock + pause < expiry
    ensures TakeTurn(pause, clock, expiry, SLOW) == More(clock + pause, Wrap64(pause + Ns(5)), clock + pause)
  {
    assert Continues(SLOW) && IsSlow(SLOW);
  }

  /** With the overflow the wait is shorter than the interval, and the code has not expired. */
  lemma SlowedTooShort(start: int, expiry: int, interval: int64)
    requires interval > 0 && !KeepsPace(interval, expiry - start)
    ensures var k := SlowDownsToOverflow(interval);
            var clock := start + Span(interval, k);
            var wait := Waited(Wrap64(Ns(interval + 5 * k)), expiry - clock);
            clock + wait < expiry && wait < Ns(interval + 5 * k)
  {
    var k := SlowDownsToOverflow(interval);
    FitsBefore(interval, k);
    FitsBefore(interval, 0);
    if k > 0 { FitsBefore(interval, k - 1); }
  }

  lemma SlowedTooEarly(sent: seq<int>, pause: int64, clock: int, start: int, expiry: int, interval: int64, script: seq<Round>)
    requires interval > 0 && !KeepsPace(interval, expiry - start)
    requires |sent| == SlowDownsToOverflow(interval) && script == AllSlow(|sent| + 1)
    requires Slowed(sent, pause, clock, start, interval)
    ensures !Scheduled(RequestTimes(sent, pause, clock, expiry, script), start, expiry, interval, script)
  {
    var k := |sent|;
    var at := clock + Waited(pause, expiry - clock);
    SlowedTooShort(start, expiry, interval);
    LastSlow(sent, pause, clock, expiry, script);
    assert !InTime(sent + [at], start, expiry, interval, script, k) by {
      AllSlowCounts(k + 1, k);
      assert FreeAt(sent + [at], start, script, k) == clock;
    }
  }

  lemma LastSlow(sent: seq<int>, pause: int64, clock: int, expiry: int, script: seq<Round>)
    requires |script| == |sent| + 1 && script[|sent|] == SLOW
    requires clock + Waited(pause, expiry - clock) < expiry
    ensures RequestTimes(sent, pause, clock, expiry, script) == sent + [clock + Waited(pause, expiry - clock)]
  {
    assert Continues(SLOW);
  }

  lemma {:induction false} SpanGrows(interval: int, m: nat, n: nat)
    requires interval >= 0 && m <= n
    ensures 0 <= Span(interval, m) <= Span(interval, n)
  {
    if m < n { SpanGrows(interval, m, n - 1); } else if n > 0 { SpanGrows(interval, n - 1, n - 1); }
  }

  ghost predicate OnSchedule(interval: int64, start: int, expiry: int, script: seq<Round>) {
    Scheduled(RequestTimes([], Wrap64(Ns(interval)), start, expiry, script), start, expiry, interval, script)
  }

  /** Every script of replies is polled on schedule exactly if the interval and the lifetime keep the pace. */
  lemma PaceIsKeptExactly(interval: int64, start: int, expiry: int)
    requires interval > 0
    ensures KeepsPace(interval, expiry - start) <==> forall script :: OnSchedule(interval, start, expiry, script)
  {
    if KeepsPace(interval, expiry - start) {
      forall script ensures OnSchedule(interval, start, expiry, script) {
        TimesAreRight(start, expiry, interval, script);
      }
    } else {
      var script := AllSlow(SlowDownsToOverflow(interval) + 1);
      SlowedOutOfPace([], Wrap64(Ns(interval)), start, start, expiry, interval, script);
      assert !OnSchedule(interval, start, expiry, script);
    }
  }

  /** For a lifetime that fits in a Duration only the first slow-down can overflow. */
  lemma PaceWithinADuration(interval: int64, lifetime: int)
    requires interval > 0 && lifetime <= MAX_INT64
    ensures KeepsPace(interval, lifetime) <==>
      || lifetime <= 0
      || (if Ns(interval) > MAX_INT64 then Wrap64(Ns(interval)) >= lifetime
          else Ns(interval + 5) <= MAX_INT64 || Ns(interval) >= lifetime)
  {
    var n := SlowDownsToOverflow(interval);
    FitsBefore(interval, 0);
    FitsBefore(interval, 1);
    FitsBefore(interval, n);
    if n == 1 {
      assert Span(interval, 1) == Span(interval, 0) + Ns(interval);
    } else if n > 1 {
      SpanGrows(interval, n - 2, n - 2);
      assert Span(interval, n) == Span(interval, n - 2) + Ns(interval + 5 * (n - 2)) + Ns(interval + 5 * (n - 1));
    }
  }

  lemma OneMore(requests: seq<int>, t: int, start: int, expiry: int, interval: int, script: seq<Round>)
    requires Scheduled(requests, start, expiry, interval, script) && |requests| < |script| && t < expiry
    requires t == DueAt(requests, start, interval, script, |requests|)
    ensures Scheduled(requests + [t], start, expiry, interval, script)
  {
    forall n | 0 <= n < |requests + [t]| ensures InTime(requests + [t], start, expiry, interval, script, n) {
      if n < |requests| { assert InTime(requests, start, expiry, interval, script, n); }
    }
  }

  lemma OneLess(requests: seq<int>, start: int, expiry: int, interval: int, script: seq<Round>)
    requires Scheduled(requests, start, expiry, interval, script) && requests != []
    ensures Scheduled(requests[..|requests| - 1], start, expiry, interval, script)
  {
    var prefix := requests[..|requests| - 1];
    forall n | 0 <= n < |prefix| ensures InTime(prefix, start, expiry, interval, script, n) {
      assert InTime(requests, start, expiry, interval, script, n);
    }
  }

  lemma {:induction false} SlowedRequests(requests: seq<int>, start: int, expiry: int, interval: nat, script: seq<Round>)
    requires Scheduled(requests, start, expiry, interval, script) && requests != []
    requires forall n :: 0 <= n < |requests| - 1 ==> IsSlow(script[n])
    ensures SlowDowns(script, |requests| - 1) == |requests| - 1
    ensures requests[|requests| - 1] - start >= Span(interval, |requests|)
  {
    var n := |requests|;
    assert InTime(requests, start, expiry, interval, script, n - 1);
    if n > 1 {
      OneLess(requests, start, expiry, interval, script);
      SlowedRequests(requests[..n - 1], start, expiry, interval, script);
      assert requests[..n - 1][n - 2] == requests[n - 2];
    }
  }

  /** n requests of which all but the last were told to slow down span at least
      n*I + 5*n*(n-1)/2 seconds, and less than the lifetime of the device code. */
  lemma SlowedRequestsSpan(requests: seq<int>, start: int, expiry: int, interval: nat, script: seq<Round>)
    requires Scheduled(requests, start, expiry, interval, script) && requests != []
    requires forall n :: 0 <= n < |requests| - 1 ==> IsSlow(script[n])
    ensures var n := |requests|;
            && SlowDowns(script, n - 1) == n - 1
            && 2 * (requests[n - 1] - start) >= Ns(2 * n * interval + 5 * n * (n - 1))
            && 2 * (expiry - start) > Ns(2 * n * interval + 5 * n * (n - 1))
  {
    SlowedRequests(requests, start, expiry, interval, script);
    SpanClosed(interval, |requests|);
    assert InTime(requests, start, expiry, interval, script, |requests| - 1);
  }

  /** The interval alone bounds the number of requests: polling ends. */
  lemma {:induction false} RequestsAreFew(requests: seq<int>, start: int, expiry: int, interval: nat, script: seq<Round>)
    requires Scheduled(requests, start, expiry, interval, script) && requests != []
    ensures requests[|requests| - 1] - start >= |requests| * Ns(interval)
    ensures |requests| * Ns(interval) < expiry - start
  {
    var n := |requests|;
    assert InTime(requests, start, expiry, interval, script, n - 1);
    if n > 1 {
      OneLess(requests, start, expiry, interval, script);
      RequestsAreFew(requests[..n - 1], start, expiry, interval, script);
      assert requests[..n - 1][n - 2] == requests[n - 2];
      assert n * interval == (n - 1) * interval + interval;
    }
  }

  /** An interval that turns negative, and one that does so after the first slow-down. */
  lemma PaceIsLost(lifetime: int)
    requires lifetime > 0
    ensures Wrap64(Ns(9223372037)) < 0 && !KeepsPace(9223372037, lifetime)
    ensures Wrap64(Ns(9223372032) + Ns(5)) < 0 && !KeepsPace(9223372032, Ns(9223372036))
  {
    PaceWithinADuration(9223372032, Ns(9223372036));
  }

  /** The store without the pending flow `code`. */
  function Dropped(s: State, code: string): State {
    if PendingIs(s, code) then s.(pending := None, generation := NextGeneration(s.generation)) else s
  }

  /** Where other clients use the store between two of this client's transactions. */
  method OthersUse(storage: MemoryStorage, others: State -> State)
    requires storage.Valid() && Harmless(others)
    modifies storage
    ensures storage.Valid() && storage.Snapshot() == others(old(storage.Snapshot()))
  {
    var s := others(State(storage.auth, storage.pending, storage.generation));
    storage.auth, storage.pending, storage.generation := s.auth, s.pending, s.generation;
  }

  /** How many rounds have used the store: the last one too if it found the code expired before it sent anything. */
  ghost function Looks(r: Poll, requests: seq<int>, script: seq<Round>): nat
    requires |requests| <= |script|
  {
    if r.Expired? && |requests| < |script| && Undecided(requests, script) then |requests| + 1
    else |requests|
  }

  /** What this client does to a store that others left as `seen`: nothing, or it stores the granted
      tokens, or it drops this flow. */
  ghost predicate Leaves(seen: State, code: string, r: Poll, storeWorks: bool, after: State) {
    && (r.Authorized? ==>
          && PendingIs(seen, code)
          && (r.tokens.expiresAt > 0 ==> after == State(Some(r.tokens), None, NextGeneration(seen.generation))))
    && (r.StillPending? || r.SlowDown? ==> after == seen)
    && (!r.Authorized? ==> after == seen || after == Dropped(seen, code))
    && ((r.Expired? || r.Denied?) && storeWorks ==> after == Dropped(seen, code))
  }

  predicate Usable(reply: Reply) {
    reply.Tokens? && ValidAuth(reply.tokens) && reply.tokens.expiresAt > 0
  }

  /** What a reply comes to. An undecided one goes on. Tokens are taken for the pending flow, if they
      are usable and the store works. Anything else is reported as the end of the context if that has
      ended, as expiry if the code has expired by `next`, and as what the reply says otherwise. */
  ghost predicate Decides(round: Round, seen: State, code: string, next: int, expiry: int, r: Poll) {
    if Continues(round) then r == Sort(round.reply)
    else if r.Authorized? then round.reply == Tokens(r.tokens)
    else
      && !(Usable(round.reply) && !round.storeCancelled && PendingIs(seen, code))
      && (round.cancelledAfter ==> r == Broken(Cancelled))
      && (!round.cancelledAfter && next >= expiry ==> r.Expired?)
      && (!round.cancelledAfter && next < expiry ==> if round.reply.Tokens? then r.Broken? else r == Sort(round.reply))
  }

  /** Without a decision polling ends because the context did, or the code expires before the next request. */
  ghost predicate EndsUndecided(r: Poll, requests: seq<int>, start: int, expiry: int, script: seq<Round>)
    requires |requests| <= |script|
  {
    || (r == Broken(Cancelled) && (|requests| < |script| ==> script[|requests|].cancelled))
    || (r.Expired? && |requests| < |script|
        && (script[|requests|].cancelled ==> FreeAt(requests, start, script, |requests|) >= expiry))
  }

  ghost predicate PollLeaves(before: State, code: string, script: seq<Round>, requests: seq<int>, r: Poll, after: State)
    requires |requests| <= |script|
  {
    Leaves(Others(before, script, Looks(r, requests, script)), code, r, StoreWorks(script), after)
  }

  ghost predicate StoreWorks(script: seq<Round>) {
    forall k <- script :: !k.storeCancelled
  }

  // ---------------------------------------------------------------- the polling loop

  /** What a poll was asked to do, with everything that happens to it meanwhile. */
  datatype Job = Job(code: string, interval: int64, expiry: int, start: int, script: seq<Round>)

  /** One turn from a store in state `s`: the loop sent a request `at` some time or not, and `next` is
      the clock afterwards. */
  ghost predicate Turned(s: State, code: string, pause: int64, clock: int, expiry: int, round: Round,
                         p: Poll, sent: bool, at: int, next: int, after: State)
  {
    && at == clock + Waited(pause, expiry - clock) + round.late
    && (sent <==> clock < expiry && !round.cancelled && at < expiry)
    && (sent ==> next == at + round.took && Decides(round, round.others(s), code, next, expiry, p))
    && (sent ==> (p.SlowDown? <==> IsSlow(round)) && (p.StillPending? || p.SlowDown? <==> Continues(round)))
    && (!sent ==> p == if clock < expiry && round.cancelled then Broken(Cancelled) else Expired)
    && if !sent && p.Broken? then after == s else Leaves(round.others(s), code, p, !round.storeCancelled, after)
  }

  /** The loop has sent `requests` and is about to take another turn. */
  ghost predicate Midway(job: Job, before: State, requests: seq<int>, pause: int64, clock: int, s: State) {
    && |requests| <= |job.script| && Undecided(requests, job.script)
    && s == Others(before, job.script, |requests|)
    && clock == FreeAt(requests, job.start, job.script, |requests|)
    && RequestTimes([], Wrap64(Ns(job.interval)), job.start, job.expiry, job.script)
       == RequestTimes(requests, pause, clock, job.expiry, job.script)
  }

  ghost predicate Polled(job: Job, before: State, r: Poll, requests: seq<int>, after: State) {
    && |requests| <= |job.script|
    && requests == RequestTimes([], Wrap64(Ns(job.interval)), job.start, job.expiry, job.script)
    && !r.StillPending? && !r.SlowDown?
    && (Undecided(requests, job.script) && r.Broken? ==> after == Others(before, job.script, |requests|))
    && (if Undecided(requests, job.script) then EndsUndecided(r, requests, job.start, job.expiry, job.script)
        else
          var n := |requests|;
          Decides(job.script[n - 1], Others(before, job.script, n), job.code,
                  FreeAt(requests, job.start, job.script, n), job.expiry, r))
    && PollLeaves(before, job.code, job.script, requests, r, after)
  }

  /** No request is late, and when the pace can be kept each is on schedule and the code expires
      only when the next one would be too late. */
  ghost predicate InPace(job: Job, r: Poll, requests: seq<int>)
    requires job.interval > 0 && |requests| <= |job.script|
  {
    && InTimeFrom(0, requests, job.expiry, job.script)
    && (KeepsPace(job.interval, job.expiry - job.start) ==>
          && Scheduled(requests, job.start, job.expiry, job.interval, job.script)
          && (|requests| < |job.script| && Undecided(requests, job.script) && r.Expired? ==>
                DueAt(requests, job.start, job.interval, job.script, |requests|) >= job.expiry))
  }

  /** Everything that is promised of a poll with valid arguments. */
  ghost predicate PollOutcome(job: Job, before: State, r: Poll, requests: seq<int>, after: State)
    requires job.interval > 0
  {
    Polled(job, before, r, requests, after) && InPace(job, r, requests)
  }

  lemma PolledIsInPace(job: Job, before: State, r: Poll, requests: seq<int>, after: State)
    requires Polled(job, before, r, requests, after) && job.interval > 0
    ensures PollOutcome(job, before, r, requests, after)
  {
    TimesAreRight(job.start, job.expiry, job.interval, job.script);
  }

  lemma TurnGoesOn(job: Job, before: State, requests: seq<int>, pause: int64, clock: int, s: State,
                   p: Poll, at: int, next: int, after: State)
    requires Midway(job, before, requests, pause, clock, s) && |requests| < |job.script|
    requires Turned(s, job.code, pause, clock, job.expiry, job.script[|requests|], p, true, at, next, after)
    requires p.SlowDown? || p.StillPending?
    ensures Midway(job, before, requests + [at], if p.SlowDown? then Wrap64(pause + Ns(5)) else pause, next, after)
  {
    assert TakeTurn(pause, clock, job.expiry, job.script[|requests|])
        == More(at, Lengthened(pause, job.script[|requests|]), next);
  }

  lemma TurnEndsUnsent(job: Job, before: State, requests: seq<int>, pause: int64, clock: int, s: State,
                       p: Poll, at: int, next: int, after: State)
    requires Midway(job, before, requests, pause, clock, s) && |requests| < |job.script| && job.interval > 0
    requires Turned(s, job.code, pause, clock, job.expiry, job.script[|requests|], p, false, at, next, after)
    ensures PollOutcome(job, before, p, requests, after)
  {
    assert TakeTurn(pause, clock, job.expiry, job.script[|requests|]) == Stop;
    LeavesWhenSomeWork(job.script, |requests|, job.script[|requests|].others(s), job.code, p, after);
    PolledIsInPace(job, before, p, requests, after);
  }

  lemma TurnEndsSent(job: Job, before: State, requests: seq<int>, pause: int64, clock: int, s: State,
                     p: Poll, at: int, next: int, after: State)
    requires Midway(job, before, requests, pause, clock, s) && |requests| < |job.script| && job.interval > 0
    requires Turned(s, job.code, pause, clock, job.expiry, job.script[|requests|], p, true, at, next, after)
    requires !p.SlowDown? && !p.StillPending?
    ensures PollOutcome(job, before, p, requests + [at], after)
  {
    assert TakeTurn(pause, clock, job.expiry, job.script[|requests|]) == Last(at);
    LeavesWhenSomeWork(job.script, |requests|, job.script[|requests|].others(s), job.code, p, after);
    PolledIsInPace(job, before, p, requests + [at], after);
  }

  /** One turn either ends the poll with its outcome or leads to the next one. */
  lemma TurnTaken(job: Job, before: State, requests: seq<int>, pause: int64, clock: int, s: State,
                  p: Poll, sent: bool, at: int, next: int, after: State)
    requires Midway(job, before, requests, pause, clock, s) && |requests| < |job.script| && job.interval > 0
    requires Turned(s, job.code, pause, clock, job.expiry, job.script[|requests|], p, sent, at, next, after)
    ensures
      if !sent then PollOutcome(job, before, p, requests, after)
      else if !p.SlowDown? && !p.StillPending? then PollOutcome(job, before, p, requests + [at], after)
      else Midway(job, before, requests + [at], if p.SlowDown? then Wrap64(pause + Ns(5)) else pause, next, after)
  {
    if !sent { TurnEndsUnsent(job, before, requests, pause, clock, s, p, at, next, after); }
    else if !p.SlowDown? && !p.StillPending? { TurnEndsSent(job, before, requests, pause, clock, s, p, at, next, after); }
    else { TurnGoesOn(job, before, requests, pause, clock, s, p, at, next, after); }
  }

  /** The requests follow the replies: each waits the given interval and five seconds more for every
      reply so far that asked to slow down. */
  lemma RequestsFollowTheReplies(job: Job, before: State, r: Poll, requests: seq<int>, after: State, n: nat)
    requires job.interval > 0 && PollOutcome(job, before, r, requests, after)
    requires KeepsPace(job.interval, job.expiry - job.start) && n < |requests|
    ensures requests[n] == (if n == 0 then job.start else requests[n - 1] + job.script[n - 1].took)
              + (job.interval + 5 * SlowDowns(job.script, n)) * 1_000_000_000 + job.script[n].late
    ensures requests[n] < job.expiry
    ensures SlowDowns(job.script, n + 1)
         == SlowDowns(job.script, n) + (if job.script[n].reply == Refused(400, "slow_down") then 1 else 0)
  {
    assert InTime(requests, job.start, job.expiry, job.interval, job.script, n);
  }

  /** While the user has not decided, the loop goes on until the next request would be too late, on the
      given interval, and the flow stays pending until then. */
  lemma UndecidedIsPolledOn(job: Job, before: State, r: Poll, requests: seq<int>, after: State)
    requires job.interval > 0 && PollOutcome(job, before, r, requests, after)
    requires forall k <- job.script :: k.reply == Refused(400, "authorization_pending") && !k.cancelled
    ensures |requests| < |job.script| ==> r.Expired?
    ensures |requests| == |job.script| ==> r == Broken(Cancelled) && after == Others(before, job.script, |requests|)
    ensures KeepsPace(job.interval, job.expiry - job.start) ==>
      && (forall n :: 0 <= n < |requests| ==>
            requests[n] == FreeAt(requests, job.start, job.script, n) + job.interval * 1_000_000_000 + job.script[n].late)
      && (|requests| < |job.script| ==>
            FreeAt(requests, job.start, job.script, |requests|) + job.interval * 1_000_000_000
              + job.script[|requests|].late >= job.expiry)
  {
    var n := |requests|;
    forall i | 0 <= i < |job.script| ensures Continues(job.script[i]) && !IsSlow(job.script[i]) {
      assert job.script[i] in job.script;
    }
    forall i | 0 <= i <= |job.script| ensures SlowDowns(job.script, i) == 0 { NoSlowDowns(job.script, i); }
    if KeepsPace(job.interval, job.expiry - job.start) {
      forall i | 0 <= i < n
        ensures requests[i] == FreeAt(requests, job.start, job.script, i) + job.interval * 1_000_000_000 + job.script[i].late
      {
        assert InTime(requests, job.start, job.expiry, job.interval, job.script, i);
      }
    }
  }

  lemma {:induction false} NoSlowDowns(script: seq<Round>, n: nat)
    requires n <= |script| && forall i :: 0 <= i < |script| ==> !IsSlow(script[i])
    ensures SlowDowns(script, n) == 0
  {
    if n > 0 { NoSlowDowns(script, n - 1); }
  }

  lemma ScriptEnds(job: Job, before: State, requests: seq<int>, pause: int64, clock: int, s: State)
    requires Midway(job, before, requests, pause, clock, s) && |requests| == |job.script| && job.interval > 0
    ensures PollOutcome(job, before, Broken(Cancelled), requests, s)
  {
    PolledIsInPace(job, before, Broken(Cancelled), requests, s);
  }

  lemma LeavesWhenSomeWork(script: seq<Round>, i: nat, seen: State, code: string, r: Poll, after: State)
    requires i < |script|
    ensures Leaves(seen, code, r, !script[i].storeCancelled, after) ==> Leaves(seen, code, r, StoreWorks(script), after)
  {
    if StoreWorks(script) { assert script[i] in script; }
  }

  class AuthResource {
    const storage: MemoryStorage

    constructor (storage: MemoryStorage)
      ensures this.storage == storage
    {
      this.storage := storage;
    }

    /** The pending flow is dropped only if it still is this one. */
    method ClearTerminalPending(code: string, cancelled: bool, now: int64) returns (r: Result<()>)
      requires storage.Valid()
      modifies storage
      ensures storage.Valid()
      ensures r == if cancelled then Err(Cancelled) else Ok(())
      ensures storage.Snapshot() == if cancelled then old(storage.Snapshot()) else Dropped(old(storage.Snapshot()), code)
      ensures storage.auth == old(storage.auth)
      ensures !cancelled ==>
        var before := old(storage.pending);
        if before.Some? && before.value.deviceCode == code
        then storage.pending == None && storage.generation == NextGeneration(old(storage.generation))
        else storage.pending == before && storage.generation == old(storage.generation)
    {
      TransactStores(storage.Snapshot(), TerminalUpdate(code), now);
      r := storage.Transact(TerminalUpdate(code), cancelled, false, now);
    }

    /** One token request and what follows from its reply. */
    method PollDeviceAuthOnce(code: string, reply: Reply, cancelled: bool, now: int64) returns (p: Poll)
      requires storage.Valid()
      modifies storage
      ensures storage.Valid()
      ensures Blank(code) ==> p == Broken(InvalidArgument)
      ensures !Blank(code) ==> p == Sort(reply) || (reply.Tokens? && p.Broken?)
      ensures !Blank(code) ==>
        && (p.StillPending? <==> reply == Refused(400, "authorization_pending"))
        && (p.SlowDown? <==> reply == Refused(400, "slow_down"))
        && (p.Expired? <==> reply == Refused(400, "expired_token"))
        && (p.Denied? <==> reply == Refused(400, "access_denied"))
      ensures p.Authorized? ==>
        && reply == Tokens(p.tokens) && !cancelled
        && old(storage.pending).Some? && old(storage.pending).value.deviceCode == code
        && (p.tokens.expiresAt > 0 ==>
              storage.Snapshot() == State(Some(p.tokens), None, NextGeneration(old(storage.generation))))
      ensures reply.Tokens? && !cancelled && !Blank(code)
              && old(storage.pending).Some? && old(storage.pending).value.deviceCode == code
              && ValidAuth(reply.tokens) && reply.tokens.expiresAt > 0
              ==> p.Authorized?
      ensures p.StillPending? || p.SlowDown? || p.Broken? ==> storage.Snapshot() == old(storage.Snapshot())
      ensures p.Expired? || p.Denied? ==>
        var before := old(storage.Snapshot());
        storage.Snapshot() ==
          if !cancelled && before.pending.Some? && before.pending.value.deviceCode == code
          then State(before.auth, None, NextGeneration(before.generation)) else before
    {
      if Blank(code) { return Broken(InvalidArgument); }
      p := Sort(reply);
      match p {
        case Authorized(tokens) =>
          var stored := storage.Transact(PollUpdate(code, tokens), cancelled, false, now);
          if stored.Err? { p := Broken(stored.error); }
        case Expired => var _ := ClearTerminalPending(code, cancelled, now);
        case Denied => var _ := ClearTerminalPending(code, cancelled, now);
        case _ =>
      }
    }

    /** Reserve, ask the server while `others` use the store, and commit if they left session and
        generation alone; the context may end before either transaction. Whatever fails, session and
        pending flow stay as they are. */
    method InitiateDeviceAuth(wire: Result<InitWire>, others: State -> State, cancelled: bool, cancelledLater: bool, clock: int64)
      returns (r: Result<Pending>)
      requires storage.Valid() && Harmless(others)
      modifies storage
      ensures storage.Valid()
      ensures cancelled ==> r == Err(Cancelled) && storage.Snapshot() == old(storage.Snapshot())
      ensures !cancelled ==>
        var reserved := old(storage.Snapshot()).(generation := NextGeneration(old(storage.generation)));
        var found := others(reserved);
        && (clock >= 0 ==>
              (r.Ok? <==> !cancelledLater && wire.Ok?
                          && var InitWire(code, phrase, uri, url, expiresIn, interval) := wire.value;
                          && code != "" && phrase != "" && uri != "" && url != "" && interval > 0
                          && 0 < expiresIn <= 9223372036
                          && found.auth == reserved.auth && found.generation == reserved.generation))
        && storage.Snapshot() == if r.Ok? then found.(pending := Some(r.value)) else found
      ensures r.Ok? ==>
        && wire.Ok?
        && var Pending(code, interval, at, url, phrase) := r.value;
        && code == wire.value.deviceCode && interval == wire.value.interval
        && url == wire.value.completeUri && phrase == wire.value.userCode
        && at == Expiry.UnixMilli(clock) + 1000 * wire.value.expiresIn
    {
      var now := Expiry.UnixMilli(clock);
      TransactStores(storage.Snapshot(), ReserveUpdate(), now);
      var reserved := storage.Transact(ReserveUpdate(), cancelled, false, now);
      if reserved.Err? { return Err(reserved.error); }
      OthersUse(storage, others);
      if wire.Err? { return Err(wire.error); }
      var w := wire.value;
      if w.deviceCode == "" || w.userCode == "" || w.uri == "" || w.completeUri == "" || w.expiresIn <= 0 || w.interval <= 0 {
        return Err(Malformed);
      }
      var expiresAt := Expiry.AbsoluteExpiry(clock, w.expiresIn);
      Expiry.AbsoluteExpiryExact(clock, w.expiresIn);
      if expiresAt.None? { return Err(Malformed); }
      var pending := Pending(w.deviceCode, w.interval, expiresAt.value, w.completeUri, w.userCode);
      if ValidPending(pending) && CommitUpdate(reserved.value, pending)(storage.Snapshot()).Ok? {
        TransactStores(storage.Snapshot(), CommitUpdate(reserved.value, pending), now);
      }
      var committed := storage.Transact(CommitUpdate(reserved.value, pending), cancelledLater, false, now);
      if committed.Err? { return Err(committed.error); }
      return Ok(pending);
    }

    /** One turn of the polling loop: wait, look at the clock again, send a request, sort its reply.
        `at` is the clock after the wait and `next` the one after the reply. */
    method PollTurn(code: string, pause: int64, clock: int, expiry: int, round: Round)
      returns (p: Poll, sent: bool, at: int, next: int)
      requires storage.Valid() && Harmless(round.others) && !Blank(code)
      modifies storage
      ensures storage.Valid()
      ensures Turned(old(storage.Snapshot()), code, pause, clock, expiry, round, p, sent, at, next, storage.Snapshot())
    {
      sent, next := false, clock;
      var remaining := expiry - clock;
      at := clock + Waited(pause, remaining) + round.late;
      if remaining <= 0 {
        OthersUse(storage, round.others);
        var _ := ClearTerminalPending(code, round.storeCancelled, round.now);
        return Expired, sent, at, next;
      }
      if round.cancelled { return Broken(Cancelled), sent, at, next; }
      OthersUse(storage, round.others);
      if !(at < expiry) {
        var _ := ClearTerminalPending(code, round.storeCancelled, round.now);
        return Expired, sent, at, next;
      }
      sent := true;
      p := PollDeviceAuthOnce(code, round.reply, round.storeCancelled, round.now);
      next := at + round.took;
      if p.Authorized? || p.SlowDown? || p.StillPending? { return; }
      if round.cancelledAfter {
        p := Broken(Cancelled);
      } else if !(next < expiry) {
        var _ := ClearTerminalPending(code, round.storeCancelled, round.now);
        p := Expired;
      }
    }

    /** `expiry` and the clock are in epoch nanoseconds. `requests` lists when token requests were sent. */
    method PollDeviceAuth(code: string, interval: int64, expiry: int, start: int, script: seq<Round>)
      returns (r: Poll, requests: seq<int>)
      requires storage.Valid() && forall k <- script :: Harmless(k.others)
      modifies storage
      ensures storage.Valid()
      ensures if interval <= 0 || expiry <= 0 || Blank(code)
              then r == Broken(InvalidArgument) && requests == [] && storage.Snapshot() == old(storage.Snapshot())
              else PollOutcome(Job(code, interval, expiry, start, script), old(storage.Snapshot()), r, requests, storage.Snapshot())
    {
      if Blank(code) || expiry <= 0 || interval <= 0 { return Broken(InvalidArgument), []; }
      r, requests := StillPending, [];
      var clock := start;
      var pause: int64 := Wrap64(Ns(interval));
      ghost var job := Job(code, interval, expiry, start, script);
      ghost var before := storage.Snapshot();
      while |requests| < |script|
        invariant |requests| <= |script| && (r.StillPending? || r.SlowDown?)
        invariant storage.Valid() && Midway(job, before, requests, pause, clock, storage.Snapshot())
        decreases |script| - |requests|
      {
        ghost var s := storage.Snapshot();
        var round := script[|requests|];
        var sent, at, next;
        r, sent, at, next := PollTurn(code, pause, clock, expiry, round);
        TurnTaken(job, before, requests, pause, clock, s, r, sent, at, next, storage.Snapshot());
        if !sent { break; }
        requests := requests + [at];
        if !r.SlowDown? && !r.StillPending? { break; }
        if r.SlowDown? {
          pause := Wrap64(pause + Ns(5));
        }
        clock := next;
      }
      if r.SlowDown? || r.StillPending? {
        ScriptEnds(job, before, requests, pause, clock, storage.Snapshot());
        r := Broken(Cancelled);
      }
    }

    /** Drops an expired flow, or polls the pending one on its own interval and expiry. */
    method ResumeDeviceAuth(now: int64, cancelled: bool, start: int, script: seq<Round>)
      returns (r: Poll, requests: seq<int>)
      requires storage.Valid() && forall k <- script :: Harmless(k.others)
      modifies storage
      ensures storage.Valid()
      ensures var before := old(storage.Snapshot());
        if cancelled then r == Broken(Cancelled) && requests == [] && storage.Snapshot() == before
        else if before.pending.None? then r == Broken(NotAuthenticated) && requests == [] && storage.Snapshot() == before
        else if now >= before.pending.value.expiresAt then
          && r == Broken(NotAuthenticated) && requests == []
          && storage.Snapshot() == State(before.auth, None, NextGeneration(before.generation))
        else
          var Pending(code, interval, at, _, _) := before.pending.value;
          var expiry := at * Expiry.NS_PER_MS;
          if Blank(code) then r == Broken(InvalidArgument) && requests == [] && storage.Snapshot() == before
          else PollOutcome(Job(code, interval, expiry, start, script), before, r, requests, storage.Snapshot())
    {
      requests := [];
      TransactStores(storage.Snapshot(), ResumeUpdate(now), now);
      var pending := storage.Transact(ResumeUpdate(now), cancelled, false, now);
      if pending.Err? { return Broken(pending.error), []; }
      if pending.value.None? { return Broken(NotAuthenticated), []; }
      var p := pending.value.value;
      r, requests := PollDeviceAuth(p.deviceCode, p.interval, p.expiresAt * Expiry.NS_PER_MS, start, script);
    }
  }
}
