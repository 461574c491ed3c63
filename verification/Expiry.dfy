/** Expiry arithmetic: the clock is in epoch nanoseconds, stored expiries in epoch milliseconds. */
module Expiry {
  import opened Session
  import opened Refresh

  const NS_PER_SECOND: int := 1_000_000_000
  const NS_PER_MS: int := 1_000_000

  /** Epoch milliseconds of an instant, rounded down. */
  function UnixMilli(now: int): int { now / NS_PER_MS }

  /** The product is a Duration, that is an int64; the clock is within 292 years of 1970, so the
      sum of an instant and a Duration does not overflow. */
  function AbsoluteExpiry(now: int64, seconds: int64): Option<int64> {
    if seconds <= 0 || seconds > MAX_INT64 / NS_PER_SECOND then None
    else Some(UnixMilli(now + Wrap64(seconds * NS_PER_SECOND)))
  }

  /** The fields of a token response that parsed as JSON. */
  datatype Wire = Wire(access: string, refresh: string, expiresIn: int64, tokenType: string)

  function DecodeAuthTokens(wire: Wire, now: int64): Result<AuthTokens> {
    if wire.access == "" || wire.refresh == "" || wire.tokenType == "" || wire.expiresIn <= 0 then Err(Malformed)
    else match AbsoluteExpiry(now, wire.expiresIn)
      case None => Err(Malformed)
      case Some(at) => Ok(AuthTokens(wire.access, wire.refresh, wire.expiresIn, wire.tokenType, at))
  }

  /** Exactly the lifetimes up to 292 years are accepted, and none of them overflows. */
  lemma AbsoluteExpiryExact(now: int64, seconds: int64)
    ensures AbsoluteExpiry(now, seconds).Some? <==> 0 < seconds && seconds * NS_PER_SECOND <= MAX_INT64
    ensures AbsoluteExpiry(now, seconds).Some? ==>
              AbsoluteExpiry(now, seconds).value == UnixMilli(now) + 1000 * seconds
  {
    if 0 < seconds && seconds * NS_PER_SECOND <= MAX_INT64 {
      assert now + seconds * NS_PER_SECOND == now + (1000 * seconds) * NS_PER_MS;
      MilliShift(now, 1000 * seconds);
    }
  }

  lemma MilliShift(now: int, ms: int)
    ensures UnixMilli(now + ms * NS_PER_MS) == UnixMilli(now) + ms
  {
    var q, r := now / NS_PER_MS, now % NS_PER_MS;
    assert now + ms * NS_PER_MS == (q + ms) * NS_PER_MS + r;
  }

  /** The token endpoint and a storage transaction compute the same expiry for the same tokens. */
  lemma StorageAgreesWithTheEndpoint(wire: Wire, now: int64)
    requires now >= 0 && DecodeAuthTokens(wire, now).Ok?
    ensures var a := DecodeAuthTokens(wire, now).value;
            && ValidAuth(a) && a.expiresAt > 0
            && PrepareAuth(a.(expiresAt := 0), UnixMilli(now)) == Ok(a)
            && PrepareAuth(a, UnixMilli(now)) == Ok(a)
  {
    AbsoluteExpiryExact(now, wire.expiresIn);
    PrepareAuthExact(DecodeAuthTokens(wire, now).value.(expiresAt := 0), UnixMilli(now));
  }

  /** A token is due from exactly 60 seconds before its expiry on, and stays due. One without an expiry never is. */
  lemma RefreshIsDueFrom(a: AuthTokens, now: int, later: int)
    ensures a.expiresAt > 0 ==>
      && NeedsRefresh(a, a.expiresAt * NS_PER_MS - 60 * NS_PER_SECOND)
      && !NeedsRefresh(a, a.expiresAt * NS_PER_MS - 60 * NS_PER_SECOND - 1)
    ensures NeedsRefresh(a, now) <==> a.expiresAt > 0 && now >= a.expiresAt * 1_000_000 - 60_000_000_000
    ensures NeedsRefresh(a, now) && now <= later ==> NeedsRefresh(a, later)
  {
  }

  /** A response is accepted exactly if its fields are there and its lifetime is positive and at most
      292 years; then every field is taken over and the expiry is the clock plus the lifetime. */
  lemma DecodingIsExact(wire: Wire, now: int64)
    ensures var r := DecodeAuthTokens(wire, now);
      if wire.access != "" && wire.refresh != "" && wire.tokenType != "" && 0 < wire.expiresIn <= 9223372036 then
        r == Ok(AuthTokens(wire.access, wire.refresh, wire.expiresIn, wire.tokenType,
                           now / 1_000_000 + 1000 * wire.expiresIn))
      else r == Err(Malformed)
  {
    AbsoluteExpiryExact(now, wire.expiresIn);
  }
}
