/**
 When an OAuth token counts as expired for one kind of lookup, and how long its cache entry
 is given to live.  Times and durations are whole nanoseconds; a creation time may be unset.
 */
module TokenExpiry {
  import opened Wrappers

  datatype Kind = Code | Access | Refresh

  /** One of a token's three credentials. */
  datatype Credential = Credential(value: string, createdAt: Option<int>, expiresIn: int)

  datatype Token = Token(userId: string, code: Credential, access: Credential, refresh: Credential)

  function Part(token: Token, kind: Kind): Credential {
    match kind
    case Code => token.code
    case Access => token.access
    case Refresh => token.refresh
  }

  predicate Matches(token: Token, kind: Kind, value: string) {
    Part(token, kind).value == value
  }

  predicate ExpiryReached(createdAt: Option<int>, expiresIn: int, now: int) {
    if expiresIn == 0 then false
    else if createdAt.None? then true
    else !(createdAt.value + expiresIn > now)
  }

  predicate ExpiredForLookup(token: Token, kind: Kind, now: int) {
    match kind
    case Code => token.code.value == "" || ExpiryReached(token.code.createdAt, token.code.expiresIn, now)
    case Refresh => token.refresh.value == "" || ExpiryReached(token.refresh.createdAt, token.refresh.expiresIn, now)
    case Access =>
      if token.access.value == "" || ExpiryReached(token.access.createdAt, token.access.expiresIn, now) then true
      else
        token.refresh.value != "" && token.refresh.expiresIn != 0
        && ExpiryReached(token.refresh.createdAt, token.refresh.expiresIn, now)
  }

  /** Negative: do not cache.  Zero: cache without a deadline. */
  function RemainingTtl(createdAt: Option<int>, expiresIn: int, now: int): int {
    if expiresIn == 0 then 0
    else if createdAt.None? then -1
    else
      var ttl := createdAt.value + expiresIn - now;
      if ttl <= 0 then -1 else ttl
  }

  function AccessTtl(token: Token, now: int): int {
    if token.access.value == "" then -1
    else
      var ttl := RemainingTtl(token.access.createdAt, token.access.expiresIn, now);
      if token.refresh.value == "" || token.refresh.expiresIn == 0 then ttl
      else
        var refreshTtl := RemainingTtl(token.refresh.createdAt, token.refresh.expiresIn, now);
        if refreshTtl < 0 then refreshTtl
        else if ttl == 0 then refreshTtl
        else if refreshTtl == 0 then ttl
        else if refreshTtl < ttl then refreshTtl
        else ttl
  }

  function Ttl(token: Token, kind: Kind, now: int): int {
    match kind
    case Code =>
      if token.code.value == "" then -1 else RemainingTtl(token.code.createdAt, token.code.expiresIn, now)
    case Access => AccessTtl(token, now)
    case Refresh =>
      if token.refresh.value == "" then -1 else RemainingTtl(token.refresh.createdAt, token.refresh.expiresIn, now)
  }

  /** Whether an entry stored at `since` with lifetime `ttl` is still served at `t`. */
  predicate ServedAt(ttl: int, since: int, t: int) {
    ttl >= 0 && (ttl == 0 || t < since + ttl)
  }

  /** The lifetime computed at `since` is exact: served at `t` if and only if not expired at `t`. */
  lemma TtlIsExact(token: Token, kind: Kind, since: int, t: int)
    requires since <= t
    ensures ServedAt(Ttl(token, kind, since), since, t) <==> !ExpiredForLookup(token, kind, t)
  {
  }

  /** Expiry is final: what has expired for a lookup stays expired. */
  lemma ExpiryIsFinal(token: Token, kind: Kind, s: int, t: int)
    requires s <= t && ExpiredForLookup(token, kind, s)
    ensures ExpiredForLookup(token, kind, t)
  {
  }
}
