/** The values every client of one store shares: tokens, the pending device flow, the stored
    snapshot, and what one storage transaction does to it. */
module Session {

  datatype Option<+T> = None | Some(value: T)

  datatype Error =
    | Cancelled
    | InvalidArgument
    | NotAuthenticated
    | Superseded
    | Network
    | Storage
    | Malformed
    | TooLarge

  datatype Result<+T> = Ok(value: T) | Err(error: Error)

  const MAX_UINT64: int := 0xFFFF_FFFF_FFFF_FFFF
  const MAX_INT64: int := 0x7FFF_FFFF_FFFF_FFFF

  type uint64 = n: int | 0 <= n <= MAX_UINT64
  type int64 = n: int | -MAX_INT64 - 1 <= n <= MAX_INT64

  type byte = n: int | 0 <= n < 256
  type Bytes = seq<byte>

  /** Two's complement: the int64 that a machine addition, subtraction or product leaves. */
  function Wrap64(x: int): (r: int64)
    ensures -MAX_INT64 - 1 <= x <= MAX_INT64 <==> r == x
  {
    (x + 0x8000_0000_0000_0000) % 0x1_0000_0000_0000_0000 - 0x8000_0000_0000_0000
  }

  /** The characters that Go's strings.TrimSpace removes. */
  predicate Space(c: char) {
    var n := c as int;
    9 <= n <= 13 || n == 32 || n == 0x85 || n == 0xA0 || n == 0x1680 || 0x2000 <= n <= 0x200A
    || n == 0x2028 || n == 0x2029 || n == 0x202F || n == 0x205F || n == 0x3000
  }

  predicate Blank(s: string) {
    forall c <- s :: Space(c)
  }

  datatype AuthTokens = AuthTokens(
    access: string, refresh: string, expiresIn: int64, tokenType: string, expiresAt: int64)

  datatype Pending = Pending(
    deviceCode: string, interval: int64, expiresAt: int64, verificationUrl: string, phrase: string)

  datatype State = State(auth: Option<AuthTokens>, pending: Option<Pending>, generation: uint64)

  /** A store that was never written. */
  const EMPTY: State := State(None, None, 0)

  predicate ValidAuth(a: AuthTokens) {
    a.access != "" && a.refresh != "" && a.tokenType != "" && a.expiresIn > 0 && a.expiresAt >= 0
  }

  predicate ValidPending(p: Pending) {
    p.deviceCode != "" && p.interval > 0 && p.expiresAt > 0 && p.verificationUrl != "" && p.phrase != ""
  }

  /** What a successful transaction leaves behind: fields checked and every expiry filled in. */
  predicate Prepared(s: State) {
    && (s.auth.Some? ==> ValidAuth(s.auth.value) && s.auth.value.expiresAt > 0)
    && (s.pending.Some? ==> ValidPending(s.pending.value))
  }

  function NextGeneration(current: uint64): uint64 {
    if current == MAX_UINT64 then 1 else current + 1
  }

  /** Go's int64 quotient, which truncates toward zero. */
  function TruncatedQuotient(x: int, y: int): int
    requires y > 0
  {
    if x >= 0 then x / y else -((-x) / y)
  }

  /** `now` is the clock in epoch milliseconds. The overflow guard subtracts in int64. */
  function PrepareAuth(a: AuthTokens, now: int64): Result<AuthTokens> {
    if !ValidAuth(a) then Err(InvalidArgument)
    else if a.expiresAt != 0 then Ok(a)
    else if a.expiresIn > TruncatedQuotient(Wrap64(MAX_INT64 - now), 1000) then Err(InvalidArgument)
    else Ok(a.(expiresAt := Wrap64(now + Wrap64(a.expiresIn * 1000))))
  }

  function PrepareSnapshot(s: State, now: int64): Result<State> {
    if s.pending.Some? && !ValidPending(s.pending.value) then Err(InvalidArgument)
    else if s.auth.None? then Ok(s)
    else match PrepareAuth(s.auth.value, now)
      case Err(e) => Err(e)
      case Ok(a) => Ok(s.(auth := Some(a)))
  }

  /** A callback gets a copy of the state and returns the edited copy together with whatever
      it captured for its caller, or an error. */
  type Update<!R> = State -> Result<(State, R)>

  datatype Outcome<+R> = Outcome(state: State, result: Result<R>)

  /** A transaction that holds the lock: run the callback, look at the context once more,
      prepare, and only then replace the stored value. */
  function Transact<R>(s: State, update: Update<R>, cancelled: bool, now: int64): Outcome<R> {
    match update(s)
    case Err(e) => Outcome(s, Err(e))
    case Ok((edited, captured)) =>
      if cancelled then Outcome(s, Err(Cancelled))
      else match PrepareSnapshot(edited, now)
        case Err(e) => Outcome(s, Err(e))
        case Ok(prepared) => Outcome(prepared, Ok(captured))
  }

  /** Expiry is added without overflow exactly when the sum fits, and never before 1970. */
  lemma PrepareAuthExact(a: AuthTokens, now: int64)
    requires ValidAuth(a) && a.expiresAt == 0
    ensures PrepareAuth(a, now).Ok? <==> now >= 0 && now + 1000 * a.expiresIn <= MAX_INT64
    ensures PrepareAuth(a, now).Ok? ==> PrepareAuth(a, now).value == a.(expiresAt := now + 1000 * a.expiresIn)
  {
    if now >= 0 {
      assert Wrap64(MAX_INT64 - now) == MAX_INT64 - now;
    } else {
      assert Wrap64(MAX_INT64 - now) < 0;
    }
  }

  /** Whatever the callback and the clock do, the store moves only between prepared states,
      and a failed transaction does not move it at all. */
  lemma TransactKeepsPrepared<R>(s: State, update: Update<R>, cancelled: bool, now: int64)
    requires Prepared(s)
    ensures var o := Transact(s, update, cancelled, now);
      && Prepared(o.state)
      && (o.result.Err? ==> o.state == s)
      && (o.result.Ok? ==> !cancelled && update(s).Ok? && update(s).value.1 == o.result.value
                           && o.state.pending == update(s).value.0.pending
                           && o.state.generation == update(s).value.0.generation
                           && (o.state.auth.None? <==> update(s).value.0.auth.None?))
  {
    if update(s).Ok? && update(s).value.0.auth.Some? {
      var a := update(s).value.0.auth.value;
      if ValidAuth(a) && a.expiresAt == 0 {
        PrepareAuthExact(a, now);
      }
    }
  }

  /** An edit that is already prepared is stored as it stands. */
  lemma TransactStores<R>(s: State, update: Update<R>, now: int64)
    requires update(s).Ok? && Prepared(update(s).value.0)
    ensures Transact(s, update, false, now) == Outcome(update(s).value.0, Ok(update(s).value.1))
  {
  }

  /** What a transaction does, field by field: when it is accepted, what it stores and which expiry it
      fills in, and with which error it is refused. */
  lemma TransactIsExact<R>(s: State, update: Update<R>, cancelled: bool, now: int64)
    ensures var o := Transact(s, update, cancelled, now);
      match update(s)
      case Err(e) => o == Outcome(s, Err(e))
      case Ok((edited, captured)) =>
        var refilled := edited.auth.Some? && edited.auth.value.expiresAt == 0;
        var sessionOk := edited.auth.Some? ==>
          var AuthTokens(access, refresh, expiresIn, tokenType, expiresAt) := edited.auth.value;
          && access != "" && refresh != "" && tokenType != "" && expiresIn > 0 && expiresAt >= 0
          && (expiresAt == 0 ==> now >= 0 && now + 1000 * expiresIn <= 0x7FFF_FFFF_FFFF_FFFF);
        var flowOk := edited.pending.Some? ==>
          var Pending(code, interval, expiresAt, url, phrase) := edited.pending.value;
          code != "" && interval > 0 && expiresAt > 0 && url != "" && phrase != "";
        if !cancelled && sessionOk && flowOk then
          && o.result == Ok(captured)
          && o.state == if refilled then edited.(auth := Some(edited.auth.value.(
                                             expiresAt := now + 1000 * edited.auth.value.expiresIn)))
                        else edited
        else
          o == Outcome(s, Err(if cancelled then Cancelled else InvalidArgument))
  {
    if update(s).Ok? && update(s).value.0.auth.Some? {
      var a := update(s).value.0.auth.value;
      if ValidAuth(a) && a.expiresAt == 0 { PrepareAuthExact(a, now); }
    }
  }

  /** White space below U+0100, which is all that ASCII text and Latin letters can contain of it. */
  lemma BlankIsExact(s: string)
    requires forall c <- s :: c as int < 256
    ensures Blank(s) <==> forall c <- s :: c as int in [0x09, 0x0A, 0x0B, 0x0C, 0x0D, 0x20, 0x85, 0xA0]
  {
  }
}
