/**
 What each operation of the token store does to its rows and to what lookups answer, in terms of the
 columns and entries that an observer of the database and the cache sees.
 */
module TokenLaws {
  import opened Strings
  import opened Wrappers
  import opened TokenExpiry
  import opened TokenStore
  import opened TokenFinality

  // ---------- expiry ----------

  /** A credential that is set, and whose lifetime, if it has one, has begun and not ended. */
  predicate InForce(c: Credential, now: int) {
    c.value != "" && (c.expiresIn == 0 || (c.createdAt.Some? && now < c.createdAt.value + c.expiresIn))
  }

  /** Codes and refresh credentials are good while in force; an access credential also needs its token's
      refresh credential to be so, if there is one. */
  lemma ExpiryExactly(token: Token, kind: Kind, now: int)
    ensures !ExpiredForLookup(token, kind, now) <==>
              && InForce(Part(token, kind), now)
              && (kind == Access && token.refresh.value != "" ==> InForce(token.refresh, now))
  {
  }

  // ---------- lookups ----------

  /** The newest row that holds the value in this lookup's column. */
  ghost predicate NewestRow(rows: map<nat, Row>, kind: Kind, value: string, id: nat) {
    && id in rows && Column(rows[id], kind) == value
    && forall other :: other in rows && Column(rows[other], kind) == value ==> other <= id
  }

  /** What a lookup answers, and which row it removes: a live entry is returned as it is; failing that the
      newest row with the value decides, and is removed exactly if its token has expired. */
  lemma LookupExactly(s: Store, kind: Kind, value: string, now: int, link: CacheLink)
    requires value != "" && (s.hasCache ==> link.getOk)
    ensures var got := Get(s, kind, value, now, link);
            if CacheHit(s, kind, value, now) then
              got.reply == Found(s.cache[LookupCacheKey(kind, value)].token) && got.store == s
            else
              && (forall id :: NewestRow(s.rows, kind, value, id) ==>
                    && got.reply == AnswerOf(s.rows[id].data, kind, value, now)
                    && got.store.rows == (if HasExpired(s.rows[id].data, kind, now) then s.rows - {id} else s.rows))
              && ((forall id :: id in s.rows ==> Column(s.rows[id], kind) != value) ==>
                    got.reply == Nothing && got.store == s)
  {
    var found := FindRecord(s.rows, kind, value);
    if found.None? {
      NoneMeansAbsent(s.rows, kind, value);
    } else {
      assert NewestRow(s.rows, kind, value, found.value);
      FromRowExactly(s, kind, value, found.value, now, link);
    }
    hide FindRecord, FromRow, LookupCacheKey, AnswerOf, HasExpired;
  }

  predicate HasExpired(data: Payload, kind: Kind, now: int) { data.Encoded? && ExpiredForLookup(data.token, kind, now) }

  /** A row's answer: its token if it is good and carries the value, and a failure if it cannot be read. */
  function AnswerOf(data: Payload, kind: Kind, value: string, now: int): Reply {
    match data
    case Malformed => Failed
    case Empty => Nothing
    case Encoded(token) =>
      if !ExpiredForLookup(token, kind, now) && Part(token, kind).value == value then Found(token) else Nothing
  }

  lemma FromRowExactly(s: Store, kind: Kind, value: string, id: nat, now: int, link: CacheLink)
    requires id in s.rows
    ensures var got := FromRow(s, kind, value, id, now, link);
            && got.reply == AnswerOf(s.rows[id].data, kind, value, now)
            && got.store.rows == (if HasExpired(s.rows[id].data, kind, now) then s.rows - {id} else s.rows)
  {
    hide CacheToken, DropKeys, TokenKeys, ExpiredForLookup;
  }

  /** A lookup with a failing cache, or by an empty value, changes nothing. */
  lemma NoLookup(s: Store, kind: Kind, value: string, now: int, link: CacheLink)
    requires value == "" || (s.hasCache && !link.getOk)
    ensures Get(s, kind, value, now, link).store == s
    ensures Get(s, kind, value, now, link).reply == if value == "" then Nothing else Failed
  {
  }

  // ---------- creations ----------

  /** The row shares a credential with the token. */
  predicate SharesCredential(row: Row, token: Token) {
    || (token.code.value != "" && row.code == token.code.value)
    || (token.access.value != "" && row.access == token.access.value)
    || (token.refresh.value != "" && row.refresh == token.refresh.value)
  }

  /** A creation removes exactly the rows that share a credential with the new token, whoever's they are,
      and adds one row that mirrors it. */
  lemma CreationRowsExactly(s: Store, token: Token, now: int, link: CacheLink)
    requires s.nextId !in s.rows
    ensures var rows := Create(s, token, now, link).rows;
            && (forall id :: id in s.rows ==>
                  (id in rows <==>
                     && (token.code.value == "" || s.rows[id].code != token.code.value)
                     && (token.access.value == "" || s.rows[id].access != token.access.value)
                     && (token.refresh.value == "" || s.rows[id].refresh != token.refresh.value)))
            && (forall id :: id in s.rows && id in rows ==> rows[id] == s.rows[id])
            && (forall id :: id in rows ==> id in s.rows || id == s.nextId)
            && s.nextId in rows
            && rows[s.nextId] == Row(token.userId, token.code.value, token.access.value, token.refresh.value,
                                     Encoded(token))
  {
    hide CacheToken;
  }

  /** A lookup by a value that is not one of the new token's answers the same as before, unless the cache
      does not answer it and its row shared another credential with the new token; then it finds
      nothing. */
  lemma OthersAfterCreation(s: Store, token: Token, now: int, link: CacheLink, kind: Kind, value: string,
                            later: int, link': CacheLink)
    requires Unique(s) && value != "" && value != Part(token, kind).value
    ensures var reply := Get(s, kind, value, later, link').reply;
            var reply' := Get(Create(s, token, now, link), kind, value, later, link').reply;
            if (s.hasCache ==> link'.getOk) && !CacheHit(s, kind, value, later)
               && exists id :: id in s.rows && Column(s.rows[id], kind) == value
                               && SharesCredential(s.rows[id], token) then
              reply' == Nothing
            else reply' == reply
  {
    var s' := Create(s, token, now, link);
    OtherEntry(s, token, now, link, kind, value);
    CreateIsUnique(s, token, now, link);
    if s.hasCache && !link'.getOk {
      NoLookup(s, kind, value, later, link');
      NoLookup(s', kind, value, later, link');
    } else {
      LookupExactly(s, kind, value, later, link');
      LookupExactly(s', kind, value, later, link');
      OtherRows(s, token, now, link, kind, value);
    }
    hide Create, Get, Unique, LookupCacheKey, AnswerOf, HasExpired, SharesCredential, NewestRow;
  }

  lemma CreateIsUnique(s: Store, token: Token, now: int, link: CacheLink)
    requires Unique(s)
    ensures Unique(Create(s, token, now, link))
  {
    hide CacheToken;
    assert forall id, kind: Kind | id in WithoutColliding(s.rows, token) && Column(s.rows[id], kind) != ""
        :: Column(s.rows[id], kind) != Column(RecordOf(token), kind);
  }

  lemma OtherEntry(s: Store, token: Token, now: int, link: CacheLink, kind: Kind, value: string)
    requires value != Part(token, kind).value
    ensures var s' := Create(s, token, now, link);
            s'.hasCache == s.hasCache && SameEntry(s.cache, s'.cache, LookupCacheKey(kind, value))
  {
    SameKey(Code, token.code.value, kind, value);
    SameKey(Access, token.access.value, kind, value);
    SameKey(Refresh, token.refresh.value, kind, value);
    hide LookupCacheKey, Ttl;
  }

  /** With one row per value at most, that row is the newest. */
  lemma OtherRows(s: Store, token: Token, now: int, link: CacheLink, kind: Kind, value: string)
    requires Unique(s) && value != "" && value != Part(token, kind).value
    ensures var rows := Create(s, token, now, link).rows;
            && (forall id :: id in s.rows && Column(s.rows[id], kind) == value ==> NewestRow(s.rows, kind, value, id))
            && (forall id :: id in rows && Column(rows[id], kind) == value ==>
                  id in s.rows && rows[id] == s.rows[id] && NewestRow(rows, kind, value, id))
            && (forall id :: id in s.rows && Column(s.rows[id], kind) == value ==>
                  (id in rows <==> !SharesCredential(s.rows[id], token)))
  {
    hide CacheToken;
  }

  // ---------- removals ----------

  /** A removal that the cache does not answer removes the newest row with the value, unless that row
      cannot be read or holds an unexpired token with another value. */
  lemma RemovalRowsExactly(s: Store, kind: Kind, value: string, now: int, link: CacheLink, id: nat)
    requires id in s.rows
    ensures var rows := Remove(s, kind, value, now, link).rows;
            && (forall other :: other in rows ==> other in s.rows && rows[other] == s.rows[other])
            && (id !in rows <==>
                  && value != "" && (s.hasCache ==> link.getOk) && !CacheHit(s, kind, value, now)
                  && NewestRow(s.rows, kind, value, id) && RemovableRow(s.rows[id].data, kind, value, now))
  {
    if value == "" || (s.hasCache && !link.getOk) {
      NoLookup(s, kind, value, now, link);
    } else if CacheHit(s, kind, value, now) {
      HitKeepsRows(s, kind, value, now, link);
    } else {
      MissedRows(s, kind, value, now, link, id);
    }
    hide Remove, Get, RemovableRow, LookupCacheKey, NewestRow;
  }

  predicate RemovableRow(data: Payload, kind: Kind, value: string, now: int) {
    match data
    case Malformed => false
    case Empty => true
    case Encoded(token) => ExpiredForLookup(token, kind, now) || Part(token, kind).value == value
  }

  lemma HitKeepsRows(s: Store, kind: Kind, value: string, now: int, link: CacheLink)
    requires CacheHit(s, kind, value, now)
    ensures Remove(s, kind, value, now, link).rows == s.rows
  {
    hide TokenKeys, FindRecord, FromRow, LookupCacheKey;
  }

  lemma MissedRows(s: Store, kind: Kind, value: string, now: int, link: CacheLink, id: nat)
    requires id in s.rows && value != "" && (s.hasCache ==> link.getOk) && !CacheHit(s, kind, value, now)
    ensures var rows := Remove(s, kind, value, now, link).rows;
            && (forall other :: other in rows ==> other in s.rows && rows[other] == s.rows[other])
            && (id !in rows <==> NewestRow(s.rows, kind, value, id) && RemovableRow(s.rows[id].data, kind, value, now))
  {
    var found := FindRecord(s.rows, kind, value);
    if found.None? {
      NoneMeansAbsent(s.rows, kind, value);
      MissWithoutRow(s, kind, value, now, link);
    } else {
      RemovedRows(s, kind, value, found.value, now, link);
      OneNewest(s.rows, kind, value, found.value, id);
    }
    hide FindRecord, Remove, ExpiredForLookup, NewestRow;
  }

  lemma OneNewest(rows: map<nat, Row>, kind: Kind, value: string, found: nat, id: nat)
    requires Newest(rows, kind, value, found)
    ensures NewestRow(rows, kind, value, id) <==> id == found
  {
  }

  lemma MissWithoutRow(s: Store, kind: Kind, value: string, now: int, link: CacheLink)
    requires FindRecord(s.rows, kind, value) == None && value != "" && (s.hasCache ==> link.getOk)
    requires !CacheHit(s, kind, value, now)
    ensures Remove(s, kind, value, now, link).rows == s.rows
    ensures forall id :: !NewestRow(s.rows, kind, value, id)
  {
    NoneMeansAbsent(s.rows, kind, value);
    hide LookupCacheKey, FindRecord, FromRow;
  }

  /** Removing a token does not touch lookups by values that are not its own. */
  lemma OthersAfterRemoval(s: Store, kind: Kind, value: string, now: int, link: CacheLink, k: Kind, v: string,
                           later: int, link': CacheLink)
    requires Unique(s) && Mirrored(s.rows) && Get(s, kind, value, now, link).reply.Found?
    requires v != "" && v != Part(Get(s, kind, value, now, link).reply.token, k).value
    ensures Get(Remove(s, kind, value, now, link), k, v, later, link').reply == Get(s, k, v, later, link').reply
  {
    var s' := Remove(s, kind, value, now, link);
    KeptEntry(s, kind, value, now, link, k, v);
    KeptRows(s, kind, value, now, link, k, v);
    if s.hasCache && !link'.getOk {
      NoLookup(s, k, v, later, link');
      NoLookup(s', k, v, later, link');
    } else {
      LookupExactly(s, k, v, later, link');
      LookupExactly(s', k, v, later, link');
    }
    hide Remove, Get, Unique, Mirrored, LookupCacheKey, AnswerOf, HasExpired, NewestRow;
  }

  lemma KeptEntry(s: Store, kind: Kind, value: string, now: int, link: CacheLink, k: Kind, v: string)
    requires Unique(s) && Get(s, kind, value, now, link).reply.Found?
    requires v != Part(Get(s, kind, value, now, link).reply.token, k).value
    ensures var s' := Remove(s, kind, value, now, link);
            s'.hasCache == s.hasCache && SameEntry(s.cache, s'.cache, LookupCacheKey(k, v))
  {
    var token := Get(s, kind, value, now, link).reply.token;
    NotItsKey(token, k, v);
    if CacheHit(s, kind, value, now) {
      HitRemovesKeys(s, kind, value, now, link);
    } else {
      WithoutFound(s, kind, value, now, link);
      CachedElsewhere(s, token, now, link, k, v);
    }
    hide Remove, Get, LookupCacheKey, TokenKeys, Unique, RowsWithout, CacheToken;
  }

  lemma NotItsKey(token: Token, k: Kind, v: string)
    requires v != Part(token, k).value
    ensures LookupCacheKey(k, v) !in TokenKeys(token)
  {
    SameKey(Code, token.code.value, k, v);
    SameKey(Access, token.access.value, k, v);
    SameKey(Refresh, token.refresh.value, k, v);
    hide LookupCacheKey;
  }

  lemma CachedElsewhere(s: Store, token: Token, now: int, link: CacheLink, k: Kind, v: string)
    requires v != Part(token, k).value
    ensures SameEntry(s.cache, CacheToken(s, token, now, link).cache, LookupCacheKey(k, v))
  {
    SameKey(Code, token.code.value, k, v);
    SameKey(Access, token.access.value, k, v);
    SameKey(Refresh, token.refresh.value, k, v);
    hide LookupCacheKey, Ttl;
  }

  lemma HitRemovesKeys(s: Store, kind: Kind, value: string, now: int, link: CacheLink)
    requires CacheHit(s, kind, value, now) && Get(s, kind, value, now, link).reply.Found?
    ensures Remove(s, kind, value, now, link)
         == DropKeys(s, TokenKeys(Get(s, kind, value, now, link).reply.token), link)
  {
    hide LookupCacheKey, FindRecord, FromRow, TokenKeys, DropKeys;
  }

  lemma KeptRows(s: Store, kind: Kind, value: string, now: int, link: CacheLink, k: Kind, v: string)
    requires Unique(s) && Mirrored(s.rows) && Get(s, kind, value, now, link).reply.Found?
    requires v != "" && v != Part(Get(s, kind, value, now, link).reply.token, k).value
    ensures var rows := Remove(s, kind, value, now, link).rows;
            && (forall id :: id in s.rows && Column(s.rows[id], k) == v ==>
                  id in rows && rows[id] == s.rows[id] && NewestRow(s.rows, k, v, id) && NewestRow(rows, k, v, id))
            && (forall id :: id in rows ==> id in s.rows && rows[id] == s.rows[id])
  {
    var token := Get(s, kind, value, now, link).reply.token;
    if CacheHit(s, kind, value, now) {
      HitKeepsRows(s, kind, value, now, link);
    } else {
      var id := FindRecord(s.rows, kind, value).value;
      FoundRow(s, kind, value, now, link);
      RemovedRows(s, kind, value, id, now, link);
    }
    hide Remove, Get, FindRecord, LookupCacheKey, ExpiredForLookup, Part;
  }

  lemma FoundRow(s: Store, kind: Kind, value: string, now: int, link: CacheLink)
    requires !CacheHit(s, kind, value, now) && Get(s, kind, value, now, link).reply.Found?
    ensures value != "" && (s.hasCache ==> link.getOk) && FindRecord(s.rows, kind, value).Some?
    ensures s.rows[FindRecord(s.rows, kind, value).value].data == Encoded(Get(s, kind, value, now, link).reply.token)
    ensures Mirrored(s.rows) ==>
              forall k :: Column(s.rows[FindRecord(s.rows, kind, value).value], k)
                          == Part(Get(s, kind, value, now, link).reply.token, k).value
  {
    hide LookupCacheKey, FindRecord, ExpiredForLookup, CacheToken, DropKeys, TokenKeys;
  }

  // ---------- purges ----------

  /** A purge removes exactly the rows of the trimmed user, and nobody else's. */
  lemma PurgeRowsExactly(s: Store, userId: string, link: CacheLink, id: nat)
    requires id in s.rows
    ensures var s', user := Purge(s, userId, link), TrimSpace(userId);
            && (id in s'.rows <==> user == "" || s.rows[id].userId != user)
            && (id in s'.rows ==> s'.rows[id] == s.rows[id]) && s'.rows.Keys <= s.rows.Keys
  {
    hide TrimSpace;
    PurgedRows(s, userId, link);
    hide Purge;
  }

  /** And exactly the entries under the trimmed credentials of those rows, if the cache deletes. */
  lemma PurgeEntriesExactly(s: Store, userId: string, link: CacheLink, kind: Kind, value: string)
    requires value != ""
    ensures var s', user, key := Purge(s, userId, link), TrimSpace(userId), LookupCacheKey(kind, value);
            && (key in s'.cache <==>
                  key in s.cache
                  && !(s.hasCache && link.delOk && user != ""
                       && exists id :: id in s.rows && s.rows[id].userId == user
                                       && TrimSpace(Column(s.rows[id], kind)) == value))
            && (key in s'.cache ==> s'.cache[key] == s.cache[key])
  {
    KnownKeys(s.rows, TrimSpace(userId), kind, value);
    hide TrimSpace, KeysOf, LookupCacheKey;
  }
}
