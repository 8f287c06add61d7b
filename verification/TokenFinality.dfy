/**
 What a lookup finds after a token has been created, removed, or purged with its user: the cases in
 which the cache still answers with what the rows no longer hold, and no others.
 */
module TokenFinality {
  import opened Sets
  import opened Strings
  import opened Wrappers
  import opened TokenExpiry
  import opened TokenStore

  // ---------- what answers a lookup ----------

  predicate RowServes(row: Row, kind: Kind, value: string, t: int) {
    && Column(row, kind) == value && row.data.Encoded?
    && Matches(row.data.token, kind, value) && !ExpiredForLookup(row.data.token, kind, t)
  }

  /** The rows serve this lookup at time `t`. */
  ghost predicate RowsServe(rows: map<nat, Row>, kind: Kind, value: string, t: int) {
    exists id :: id in rows && RowServes(rows[id], kind, value, t)
  }

  lemma NoneMeansAbsent(rows: map<nat, Row>, kind: Kind, value: string)
    requires FindRecord(rows, kind, value) == None
    ensures forall id :: id in rows ==> Column(rows[id], kind) != value
  {
    var ids := set id | id in rows && Column(rows[id], kind) == value;
    if ids != {} {
      var top := Greatest(ids);
      assert forall id :: id in rows && Column(rows[id], kind) == value ==> id in ids;
      assert Newest(rows, kind, value, top);
    }
    assert forall id :: id in rows && Column(rows[id], kind) == value ==> id in ids;
  }

  /** On a cache miss the reply is found exactly when the rows serve the lookup. */
  lemma ServedExactly(s: Store, kind: Kind, value: string, t: int, link: CacheLink)
    requires Unique(s) && value != "" && (s.hasCache ==> link.getOk) && !CacheHit(s, kind, value, t)
    ensures Get(s, kind, value, t, link).reply.Found? <==> RowsServe(s.rows, kind, value, t)
  {
    var found := FindRecord(s.rows, kind, value);
    if found.Some? {
      assert forall id :: id in s.rows && Column(s.rows[id], kind) == value ==> id == found.value;
    } else {
      NoneMeansAbsent(s.rows, kind, value);
    }
  }

  /** The answer with the cache read: the cache's entry if there is one, and otherwise a row's token. */
  lemma AnswerIs(s: Store, kind: Kind, value: string, t: int, link: CacheLink)
    requires Unique(s)
    ensures var reply := Get(s, kind, value, t, link).reply;
            && (reply.Found? <==> value != "" && (s.hasCache ==> link.getOk)
                                  && (CacheHit(s, kind, value, t) || RowsServe(s.rows, kind, value, t)))
            && (reply.Found? && CacheHit(s, kind, value, t) ==>
                  reply.token == s.cache[LookupCacheKey(kind, value)].token)
            && (reply.Found? && !CacheHit(s, kind, value, t) ==>
                  forall id :: id in s.rows && RowServes(s.rows[id], kind, value, t) ==>
                    reply.token == s.rows[id].data.token)
  {
    if value != "" && (s.hasCache ==> link.getOk) && !CacheHit(s, kind, value, t) {
      ServedExactly(s, kind, value, t, link);
      var found := FindRecord(s.rows, kind, value);
      if found.Some? {
        assert forall id :: id in s.rows && Column(s.rows[id], kind) == value ==> id == found.value;
      }
    }
    hide RowsServe, Unique, LookupCacheKey, ExpiredForLookup, CacheToken, DropKeys, TokenKeys;
  }

  /** One entry of the cache after a token has been cached. */
  lemma CachedAt(s: Store, token: Token, kind: Kind, now: int, link: CacheLink)
    requires Part(token, kind).value != ""
    ensures var key := LookupCacheKey(kind, Part(token, kind).value);
            var cache := CacheToken(s, token, now, link).cache;
            var ttl := Ttl(token, kind, now);
            if s.hasCache && kind in link.setOk && ttl >= 0 then
              key in cache && cache[key] == Entry(token, if ttl == 0 then None else Some(now + ttl))
            else SameEntry(s.cache, cache, key)
  {
    var key := LookupCacheKey(kind, Part(token, kind).value);
    forall k: Kind | LookupCacheKey(k, Part(token, k).value) == key
      ensures k == kind
    {
      KeysAreInjective(k, Part(token, k).value, kind, Part(token, kind).value);
    }
    hide LookupCacheKey, Ttl;
  }

  predicate SameEntry(a: map<string, Entry>, b: map<string, Entry>, key: string) {
    (key in a <==> key in b) && (key in a ==> a[key] == b[key])
  }

  /** Whether the cache answers for one of a token's credentials after the token has been cached. */
  lemma HitAfterCaching(s: Store, token: Token, kind: Kind, now: int, later: int, link: CacheLink)
    requires s.hasCache && Part(token, kind).value != "" && now <= later
    ensures var value := Part(token, kind).value;
            var after := CacheToken(s, token, now, link);
            var key := LookupCacheKey(kind, value);
            if kind in link.setOk && !ExpiredForLookup(token, kind, now) then
              && (CacheHit(after, kind, value, later) <==> !ExpiredForLookup(token, kind, later))
              && key in after.cache && after.cache[key].token == token
            else
              && (CacheHit(after, kind, value, later) <==> CacheHit(s, kind, value, later))
              && SameEntry(s.cache, after.cache, key)
  {
    CachedAt(s, token, kind, now, link);
    TtlIsExact(token, kind, now, now);
    TtlIsExact(token, kind, now, later);
    hide LookupCacheKey, ExpiredForLookup, Ttl, CacheToken;
  }

  // ---------- create, then look up ----------

  /** A created token is what a lookup by one of its credentials returns, until it expires, unless the
      cache write for this credential got lost and an older token's entry under it is still live. Then
      that token is returned, although its row has been replaced. */
  lemma CreateThenGet(s: Store, token: Token, kind: Kind, now: int, later: int, link: CacheLink, link': CacheLink)
    requires Unique(s) && Sound(s, now) && now <= later
    ensures var value := Part(token, kind).value;
            var key := LookupCacheKey(kind, value);
            var reply := Get(Create(s, token, now, link), kind, value, later, link').reply;
            && (reply == Found(token) <==>
                  && value != "" && !ExpiredForLookup(token, kind, later) && (s.hasCache ==> link'.getOk)
                  && (kind in link.setOk || !CacheHit(s, kind, value, later) || s.cache[key].token == token))
            && (value != "" && link'.getOk && kind !in link.setOk && CacheHit(s, kind, value, later) ==>
                  reply == Found(s.cache[key].token))
  {
    var value := Part(token, kind).value;
    if value != "" {
      var s1 := Create(s, token, now, link);
      CreateKeeps(s, token, now, link);
      CreatedRow(s, token, kind, now, later, link);
      CreatedEntry(s, token, kind, now, later, link);
      if !ExpiredForLookup(token, kind, later) && ExpiredForLookup(token, kind, now) {
        ExpiryIsFinal(token, kind, now, later);
      }
      AnswerIs(s1, kind, value, later, link');
      if CacheHit(s, kind, value, later) { LiveIsUnexpired(s, kind, value, now, later); }
      hide Create, Get, Sound, Unique, RowsServe, LookupCacheKey, ExpiredForLookup;
    }
  }

  /** The new row is the only one with this credential. */
  lemma CreatedRow(s: Store, token: Token, kind: Kind, now: int, later: int, link: CacheLink)
    requires Unique(s) && Part(token, kind).value != ""
    ensures var rows := Create(s, token, now, link).rows;
            && s.nextId in rows && rows[s.nextId] == RecordOf(token)
            && (RowsServe(rows, kind, Part(token, kind).value, later) <==> !ExpiredForLookup(token, kind, later))
            && (RowServes(rows[s.nextId], kind, Part(token, kind).value, later) <==>
                  !ExpiredForLookup(token, kind, later))
  {
    var rows := Create(s, token, now, link).rows;
    assert forall id :: id in rows && Column(rows[id], kind) == Part(token, kind).value ==> id == s.nextId;
    hide ExpiredForLookup, CacheToken;
  }

  lemma CreatedEntry(s: Store, token: Token, kind: Kind, now: int, later: int, link: CacheLink)
    requires Part(token, kind).value != "" && now <= later
    ensures var value := Part(token, kind).value;
            var after := Create(s, token, now, link);
            var key := LookupCacheKey(kind, value);
            && after.hasCache == s.hasCache
            && (if s.hasCache && kind in link.setOk && !ExpiredForLookup(token, kind, now) then
                  && (CacheHit(after, kind, value, later) <==> !ExpiredForLookup(token, kind, later))
                  && key in after.cache && after.cache[key].token == token
                else
                  && (CacheHit(after, kind, value, later) <==> CacheHit(s, kind, value, later))
                  && SameEntry(s.cache, after.cache, key))
  {
    var s1 := s.(rows := Create(s, token, now, link).rows, nextId := s.nextId + 1);
    if s.hasCache {
      HitAfterCaching(s1, token, kind, now, later, link);
    }
    hide LookupCacheKey, ExpiredForLookup, CacheToken, WithoutColliding;
    assert Create(s, token, now, link) == CacheToken(s1, token, now, link);
  }

  lemma LiveIsUnexpired(s: Store, kind: Kind, value: string, now: int, later: int)
    requires Sound(s, now) && now <= later && CacheHit(s, kind, value, later)
    ensures !ExpiredForLookup(s.cache[LookupCacheKey(kind, value)].token, kind, later)
  {
    hide ExpiredForLookup, LookupCacheKey;
  }

  // ---------- remove, then look up ----------

  /** What keeps a removal at `now` from being final at `later`: the cache could not be read, so
      nothing was removed; or the cache answered, which leaves the row where it is, and the entry
      too if it could not be deleted; or the row's token was written back to the cache on the way
      and could not be deleted from there. */
  ghost predicate OutlivesRemoval(s: Store, kind: Kind, value: string, now: int, later: int, link: CacheLink) {
    if s.hasCache && !link.getOk then CacheHit(s, kind, value, later) || RowsServe(s.rows, kind, value, later)
    else if CacheHit(s, kind, value, now) then
      RowsServe(s.rows, kind, value, later) || (!link.delOk && CacheHit(s, kind, value, later))
    else s.hasCache && !link.delOk && kind in link.setOk && RowsServe(s.rows, kind, value, later)
  }

  /** Removing by a value is not always final: exactly when a later lookup still finds a token,
      whatever the cache does with the reads, writes and deletions. */
  lemma RemovalIsFinalUnless(s: Store, kind: Kind, value: string, now: int, later: int,
                             link: CacheLink, link': CacheLink)
    requires Unique(s) && Sound(s, now) && now <= later
    ensures Get(Remove(s, kind, value, now, link), kind, value, later, link').reply.Found?
       <==> value != "" && (s.hasCache ==> link'.getOk) && OutlivesRemoval(s, kind, value, now, later, link)
  {
    var after := Remove(s, kind, value, now, link);
    RemoveKeepsCache(s, kind, value, now, link);
    if value != "" && (s.hasCache ==> link'.getOk) {
      RemoveKeeps(s, kind, value, now, link);
      hide Remove, RowsServe, FindRecord, Sound, Unique;
      if s.hasCache && !link.getOk {
        FailedRemoval(s, kind, value, now, link);
      } else if CacheHit(s, kind, value, now) {
        HitRemoval(s, kind, value, now, later, link);
      } else {
        RemoveMissClearsRows(s, kind, value, now, later, link);
        MissRemoval(s, kind, value, now, later, link);
      }
      if CacheHit(after, kind, value, later) {
        assert Get(after, kind, value, later, link').reply.Found?;
      } else {
        ServedExactly(after, kind, value, later, link');
      }
    }
  }

  lemma RemoveKeepsCache(s: Store, kind: Kind, value: string, now: int, link: CacheLink)
    ensures Remove(s, kind, value, now, link).hasCache == s.hasCache
  {
    hide CacheToken, DropKeys, TokenKeys, FindRecord, LookupCacheKey, ExpiredForLookup;
  }

  lemma FailedRemoval(s: Store, kind: Kind, value: string, now: int, link: CacheLink)
    requires s.hasCache && !link.getOk
    ensures Remove(s, kind, value, now, link) == s
  {
  }

  /** A removal answered by the cache leaves the rows alone, and at most drops the entry. */
  lemma HitRemoval(s: Store, kind: Kind, value: string, now: int, later: int, link: CacheLink)
    requires Sound(s, now) && now <= later && value != "" && link.getOk && CacheHit(s, kind, value, now)
    ensures Remove(s, kind, value, now, link).rows == s.rows
    ensures CacheHit(Remove(s, kind, value, now, link), kind, value, later)
       <==> !link.delOk && CacheHit(s, kind, value, later)
  {
    if link.delOk {
      RemoveLeavesNoHit(s, kind, value, now, later, link);
    }
    hide TokenKeys, FindRecord, Sound, FromRow;
  }

  /** After a miss the cache serves the value only if the row's token was written back and stayed. */
  lemma MissRemoval(s: Store, kind: Kind, value: string, now: int, later: int, link: CacheLink)
    requires Unique(s) && Sound(s, now) && now <= later && value != "" && (s.hasCache ==> link.getOk)
    requires !CacheHit(s, kind, value, now)
    ensures CacheHit(Remove(s, kind, value, now, link), kind, value, later)
       <==> s.hasCache && !link.delOk && kind in link.setOk && RowsServe(s.rows, kind, value, later)
  {
    WrittenBack(s, kind, value, now, later, link);
    if s.hasCache && link.delOk {
      RemoveLeavesNoHit(s, kind, value, now, later, link);
    }
    hide TokenKeys, FindRecord, Sound, Unique, Get, RowsServe;
  }

  /** A lookup that misses writes back what the rows serve, for as long as they would serve it. */
  lemma WrittenBack(s: Store, kind: Kind, value: string, now: int, later: int, link: CacheLink)
    requires Unique(s) && now <= later && value != "" && (s.hasCache ==> link.getOk)
    requires !CacheHit(s, kind, value, now)
    ensures var got := Get(s, kind, value, now, link);
            got.store.hasCache == s.hasCache
            && (!link.delOk ==> (CacheHit(got.store, kind, value, later)
                                 <==> s.hasCache && kind in link.setOk && RowsServe(s.rows, kind, value, later)))
  {
    var found := FindRecord(s.rows, kind, value);
    if found.None? {
      NoneMeansAbsent(s.rows, kind, value);
    } else {
      var id := found.value;
      assert forall other :: other in s.rows && Column(s.rows[other], kind) == value ==> other == id;
      if s.rows[id].data.Encoded? {
        var token := s.rows[id].data.token;
        if !ExpiredForLookup(token, kind, later) && ExpiredForLookup(token, kind, now) {
          ExpiryIsFinal(token, kind, now, later);
        }
        if Matches(token, kind, value) && s.hasCache && !ExpiredForLookup(token, kind, now) {
          HitAfterCaching(s, token, kind, now, later, link);
        }
      }
    }
    hide CacheToken, TokenKeys, FindRecord, LookupCacheKey, ExpiredForLookup, Unique;
  }

  lemma RemoveLeavesNoHit(s: Store, kind: Kind, value: string, now: int, later: int, link: CacheLink)
    requires Sound(s, now) && now <= later && value != "" && (s.hasCache ==> link.getOk && link.delOk)
    ensures !CacheHit(Remove(s, kind, value, now, link), kind, value, later)
  {
    GetKeeps(s, kind, value, now, link);
    GetKeepsCache(s, kind, value, now, link);
    hide Get, ExpiredForLookup, LookupCacheKey, Sound;
    var got := Get(s, kind, value, now, link);
    if got.reply.Found? {
      assert LookupCacheKey(kind, value) in TokenKeys(got.reply.token);
    }
  }

  lemma GetKeepsCache(s: Store, kind: Kind, value: string, now: int, link: CacheLink)
    ensures Get(s, kind, value, now, link).store.hasCache == s.hasCache
    ensures Get(s, kind, value, now, link).reply.Failed? && s.hasCache && link.getOk ==> !CacheHit(s, kind, value, now)
    ensures Get(s, kind, value, now, link).reply.Failed? ==> Get(s, kind, value, now, link).store == s
  {
    hide CacheToken, DropKeys, TokenKeys, FindRecord, LookupCacheKey, ExpiredForLookup;
  }

  lemma RemoveMissClearsRows(s: Store, kind: Kind, value: string, now: int, later: int, link: CacheLink)
    requires Unique(s) && value != "" && (s.hasCache ==> link.getOk)
    ensures CacheHit(s, kind, value, now) ==> Remove(s, kind, value, now, link).rows == s.rows
    ensures !CacheHit(s, kind, value, now) ==> !RowsServe(Remove(s, kind, value, now, link).rows, kind, value, later)
  {
    if !CacheHit(s, kind, value, now) {
      var found := FindRecord(s.rows, kind, value);
      if found.None? {
        NoneMeansAbsent(s.rows, kind, value);
      } else {
        RemoveRow(s, kind, value, found.value, now, later, link);
      }
    }
  }

  lemma RemoveRow(s: Store, kind: Kind, value: string, id: nat, now: int, later: int, link: CacheLink)
    requires Unique(s) && value != "" && (s.hasCache ==> link.getOk) && !CacheHit(s, kind, value, now)
    requires FindRecord(s.rows, kind, value) == Some(id)
    ensures !RowsServe(Remove(s, kind, value, now, link).rows, kind, value, later)
  {
    RemovedRows(s, kind, value, id, now, link);
    assert forall other :: other in s.rows && Column(s.rows[other], kind) == value ==> other == id;
    hide Remove, FindRecord, ExpiredForLookup;
  }

  /** A miss removes the row it was answered from, unless that row's data is unreadable or
      belongs to another value. */
  lemma RemovedRows(s: Store, kind: Kind, value: string, id: nat, now: int, link: CacheLink)
    requires value != "" && (s.hasCache ==> link.getOk) && !CacheHit(s, kind, value, now)
    requires FindRecord(s.rows, kind, value) == Some(id)
    ensures var data := s.rows[id].data;
            Remove(s, kind, value, now, link).rows
            == if data.Malformed? || (data.Encoded? && !Matches(data.token, kind, value)
                                      && !ExpiredForLookup(data.token, kind, now)) then s.rows
               else s.rows - {id}
  {
    hide CacheToken, DropKeys, TokenKeys, FindRecord, LookupCacheKey, ExpiredForLookup;
  }

  // ---------- the other credentials of a removed token ----------

  function RowsWithout(rows: map<nat, Row>, kind: Kind, value: string): map<nat, Row> {
    map id | id in rows && Column(rows[id], kind) != value :: rows[id]
  }

  /** What keeps a token in reach by its credential of kind `k` although it was found and removed by
      another one at `now`: the removal was answered by the cache and left the row, or the entries
      could not be deleted and this one is still live, be it an older one or one just written back. */
  ghost predicate CredentialSurvives(s: Store, kind: Kind, value: string, token: Token, k: Kind,
                                     now: int, later: int, link: CacheLink) {
    var v := Part(token, k).value;
    if CacheHit(s, kind, value, now) then
      RowsServe(s.rows, k, v, later) || (!link.delOk && CacheHit(s, k, v, later))
    else
      || RowsServe(RowsWithout(s.rows, kind, value), k, v, later)
      || (s.hasCache && !link.delOk
          && (if k in link.setOk && !ExpiredForLookup(token, k, now) then !ExpiredForLookup(token, k, later)
              else CacheHit(s, k, v, later)))
  }

  /** After a token has been found and removed by one credential, exactly this decides whether a lookup
      by any of its credentials still finds something. */
  lemma CredentialsAfterRemoval(s: Store, kind: Kind, value: string, k: Kind, now: int, later: int,
                                link: CacheLink, link': CacheLink)
    requires Unique(s) && Sound(s, now) && now <= later && Get(s, kind, value, now, link).reply.Found?
    ensures var token := Get(s, kind, value, now, link).reply.token;
            var v := Part(token, k).value;
            Get(Remove(s, kind, value, now, link), k, v, later, link').reply.Found?
            <==> v != "" && (s.hasCache ==> link'.getOk)
                 && CredentialSurvives(s, kind, value, token, k, now, later, link)
  {
    var token := Get(s, kind, value, now, link).reply.token;
    var v := Part(token, k).value;
    var after := Remove(s, kind, value, now, link);
    RemoveKeeps(s, kind, value, now, link);
    RemoveKeepsCache(s, kind, value, now, link);
    AnswerIs(after, k, v, later, link');
    hide Get, Remove, Sound, RowsServe, ExpiredForLookup, LookupCacheKey, Unique, RowsWithout;
    if v != "" {
      if CacheHit(s, kind, value, now) {
        FoundInCache(s, kind, value, k, now, later, link);
      } else {
        FoundInRows(s, kind, value, k, now, later, link);
      }
    }
  }

  lemma FoundInCache(s: Store, kind: Kind, value: string, k: Kind, now: int, later: int, link: CacheLink)
    requires CacheHit(s, kind, value, now) && Get(s, kind, value, now, link).reply.Found?
    requires Part(Get(s, kind, value, now, link).reply.token, k).value != ""
    ensures var v := Part(Get(s, kind, value, now, link).reply.token, k).value;
            var after := Remove(s, kind, value, now, link);
            after.rows == s.rows && (CacheHit(after, k, v, later) <==> !link.delOk && CacheHit(s, k, v, later))
  {
    hide LookupCacheKey, FindRecord, FromRow;
  }

  lemma FoundInRows(s: Store, kind: Kind, value: string, k: Kind, now: int, later: int, link: CacheLink)
    requires Unique(s) && now <= later && !CacheHit(s, kind, value, now) && Get(s, kind, value, now, link).reply.Found?
    requires Part(Get(s, kind, value, now, link).reply.token, k).value != ""
    ensures var token := Get(s, kind, value, now, link).reply.token;
            var v := Part(token, k).value;
            var after := Remove(s, kind, value, now, link);
            && after.rows == RowsWithout(s.rows, kind, value)
            && (CacheHit(after, k, v, later) <==>
                  s.hasCache && !link.delOk
                  && (if k in link.setOk && !ExpiredForLookup(token, k, now) then !ExpiredForLookup(token, k, later)
                      else CacheHit(s, k, v, later)))
  {
    var token := Get(s, kind, value, now, link).reply.token;
    WithoutFound(s, kind, value, now, link);
    if s.hasCache {
      HitAfterCaching(s, token, k, now, later, link);
    }
    hide LookupCacheKey, FindRecord, FromRow, ExpiredForLookup, CacheToken, RowsWithout, Get;
  }

  /** A removal that was answered by a row. */
  lemma WithoutFound(s: Store, kind: Kind, value: string, now: int, link: CacheLink)
    requires Unique(s) && !CacheHit(s, kind, value, now) && Get(s, kind, value, now, link).reply.Found?
    ensures var token := Get(s, kind, value, now, link).reply.token;
            Remove(s, kind, value, now, link)
            == DropKeys(CacheToken(s, token, now, link).(rows := RowsWithout(s.rows, kind, value)), TokenKeys(token),
                        link)
  {
    var id := FindRecord(s.rows, kind, value).value;
    assert forall other :: other in s.rows && Column(s.rows[other], kind) == value ==> other == id;
    assert RowsWithout(s.rows, kind, value) == s.rows - {id};
    hide CacheToken, DropKeys, TokenKeys, FindRecord, LookupCacheKey, ExpiredForLookup;
  }

  // ---------- purge, then look up ----------

  ghost function RowsLeft(rows: map<nat, Row>, user: string): map<nat, Row> {
    if user == "" then rows else rows - OwnedBy(rows, user)
  }

  /** The purge knows the cache key of this lookup from one of the user's rows. */
  ghost predicate KeyKnown(rows: map<nat, Row>, user: string, kind: Kind, value: string) {
    user != "" && exists id :: id in rows && rows[id].userId == user && TrimSpace(Column(rows[id], kind)) == value
  }

  /** A row other than the user's own serves a token that names this user. */
  ghost predicate StrayServes(rows: map<nat, Row>, user: string, kind: Kind, value: string, t: int) {
    exists id :: id in RowsLeft(rows, user) && RowServes(rows[id], kind, value, t) && rows[id].data.token.userId == user
  }

  /** What a user's purge does not reach: an entry that is under no key of the user's rows as they are
      at the time, or that could not be deleted; or else a row that does not belong to the user. */
  ghost predicate OutlivesPurge(s: Store, user: string, kind: Kind, value: string, later: int, link: CacheLink) {
    if CacheHit(s, kind, value, later) && !(link.delOk && KeyKnown(s.rows, user, kind, value)) then
      s.cache[LookupCacheKey(kind, value)].token.userId == user
    else StrayServes(s.rows, user, kind, value, later)
  }

  /** After a user's tokens have been purged, exactly this decides whether a lookup still returns one. */
  lemma PurgeIsFinalUnless(s: Store, userId: string, kind: Kind, value: string, later: int,
                           link: CacheLink, link': CacheLink)
    requires Unique(s)
    ensures var user := TrimSpace(userId);
            var reply := Get(Purge(s, userId, link), kind, value, later, link').reply;
            reply.Found? && reply.token.userId == user
            <==> value != "" && (s.hasCache ==> link'.getOk) && OutlivesPurge(s, user, kind, value, later, link)
  {
    var user, after := TrimSpace(userId), Purge(s, userId, link);
    hide TrimSpace, Get, LookupCacheKey;
    PurgedRows(s, userId, link);
    AnswerIs(after, kind, value, later, link');
    if value != "" {
      PurgedEntry(s, userId, kind, value, later, link);
      hide Purge;
      if !CacheHit(after, kind, value, later) && StrayServes(s.rows, user, kind, value, later) {
        StrayIsOnly(s, user, kind, value, later);
      }
    }
    hide Purge, OwnedBy, Unique, KeyKnown, ExpiredForLookup;
  }

  lemma PurgedRows(s: Store, userId: string, link: CacheLink)
    ensures var after := Purge(s, userId, link);
            && after.rows == RowsLeft(s.rows, TrimSpace(userId)) && after.hasCache == s.hasCache
            && after.nextId == s.nextId
    ensures Unique(s) ==> Unique(Purge(s, userId, link))
  {
  }

  lemma StrayIsOnly(s: Store, user: string, kind: Kind, value: string, t: int)
    requires Unique(s) && value != "" && StrayServes(s.rows, user, kind, value, t)
    ensures RowsServe(RowsLeft(s.rows, user), kind, value, t)
    ensures forall id :: id in RowsLeft(s.rows, user) && RowServes(s.rows[id], kind, value, t) ==>
              s.rows[id].data.token.userId == user
  {
  }

  lemma PurgedEntry(s: Store, userId: string, kind: Kind, value: string, later: int, link: CacheLink)
    requires value != ""
    ensures var after, key := Purge(s, userId, link), LookupCacheKey(kind, value);
            && (CacheHit(after, kind, value, later) <==>
                  CacheHit(s, kind, value, later) && !(link.delOk && KeyKnown(s.rows, TrimSpace(userId), kind, value)))
            && (key in after.cache ==> key in s.cache && after.cache[key] == s.cache[key])
  {
    KnownKeys(s.rows, TrimSpace(userId), kind, value);
    hide TrimSpace, KeysOf, LookupCacheKey;
  }

  lemma KnownKeys(rows: map<nat, Row>, user: string, kind: Kind, value: string)
    requires value != ""
    ensures user != "" ==> (LookupCacheKey(kind, value) in KeysOf(rows, OwnedBy(rows, user))
                            <==> KeyKnown(rows, user, kind, value))
  {
    forall id | id in rows
      ensures LookupCacheKey(kind, value) in RowKeys(rows[id]) <==> TrimSpace(Column(rows[id], kind)) == value
    {
      RowKeyOf(rows[id], kind, value);
    }
    hide RowKeys, TrimSpace, LookupCacheKey;
  }

  lemma RowKeyOf(row: Row, kind: Kind, value: string)
    requires value != ""
    ensures LookupCacheKey(kind, value) in RowKeys(row) <==> TrimSpace(Column(row, kind)) == value
  {
    hide TrimSpace;
    SameKey(Code, TrimSpace(row.code), kind, value);
    SameKey(Access, TrimSpace(row.access), kind, value);
    SameKey(Refresh, TrimSpace(row.refresh), kind, value);
    hide LookupCacheKey;
  }

  lemma SameKey(k1: Kind, v1: string, k2: Kind, v2: string)
    ensures LookupCacheKey(k1, v1) == LookupCacheKey(k2, v2) <==> k1 == k2 && v1 == v2
  {
    if LookupCacheKey(k1, v1) == LookupCacheKey(k2, v2) {
      KeysAreInjective(k1, v1, k2, v2);
    }
  }

  // ---------- runs whose rows are all the server's own ----------

  /** Every row's columns are those of the token it holds. */
  predicate Mirrored(rows: map<nat, Row>) {
    forall id :: id in rows && rows[id].data.Encoded? ==> rows[id] == RecordOf(rows[id].data.token)
  }

  lemma MirroredStep(w: World, step: Step)
    requires Mirrored(w.store.rows)
    ensures Mirrored(Take(w, step).store.rows)
  {
    match step
    case Elapse(d) =>
    case CreateStep(token, link) => hide CacheToken;
    case GetStep(kind, value, link) => GetRows(w.store, kind, value, w.now, link);
    case RemoveStep(kind, value, link) => GetRows(w.store, kind, value, w.now, link); hide Get, TokenKeys;
    case PurgeStep(userId, link) => hide TrimSpace;
    case Evict(key) =>
  }

  lemma GetRows(s: Store, kind: Kind, value: string, now: int, link: CacheLink)
    ensures var rows := Get(s, kind, value, now, link).store.rows;
            forall id :: id in rows ==> id in s.rows && rows[id] == s.rows[id]
  {
    hide FindRecord, TokenKeys, CacheToken, DropKeys, ExpiredForLookup;
  }

  lemma {:induction false} MirroredRun(w: World, steps: seq<Step>)
    requires Mirrored(w.store.rows)
    ensures Mirrored(Run(w, steps).store.rows)
    decreases |steps|
  {
    hide Take, Mirrored;
    if steps != [] {
      MirroredStep(w, steps[0]);
      MirroredRun(Take(w, steps[0]), steps[1..]);
    }
  }

  lemma NoStrays(rows: map<nat, Row>, user: string, kind: Kind, value: string, t: int)
    requires Mirrored(rows) && user != ""
    ensures !StrayServes(rows, user, kind, value, t)
  {
    hide RowServes;
    assert forall id :: id in rows && RowServes(rows[id], kind, value, t) ==> rows[id].data.Encoded? by {
      ServingRows(rows, kind, value, t);
    }
  }

  lemma ServingRows(rows: map<nat, Row>, kind: Kind, value: string, t: int)
    ensures forall id :: id in rows && RowServes(rows[id], kind, value, t) ==> rows[id].data.Encoded?
  {
  }

  /** In every run of a store whose rows are all its own: after a purge a lookup still returns a token of
      that user exactly if the cache answers it with one, and the entry is under no key of the rows that
      the user had when purged or could not be deleted. */
  lemma PurgedUsersAreServed(start: World, steps: seq<Step>, userId: string, kind: Kind, value: string, later: int,
                             link: CacheLink, link': CacheLink)
    requires Mirrored(start.store.rows) && Unique(start.store) && start.store.cache == map[]
    requires TrimSpace(userId) != "" && Run(start, steps).now <= later
    ensures var s, user := Run(start, steps).store, TrimSpace(userId);
            var reply := Get(Purge(s, userId, link), kind, value, later, link').reply;
            reply.Found? && reply.token.userId == user
            <==> && link'.getOk && CacheHit(s, kind, value, later)
                 && s.cache[LookupCacheKey(kind, value)].token.userId == user
                 && !(link.delOk && KeyKnown(s.rows, user, kind, value))
  {
    hide Run, TrimSpace, Get, Purge, KeyKnown, StrayServes, LookupCacheKey, Mirrored;
    var s, user := Run(start, steps).store, TrimSpace(userId);
    RunKeeps(start, steps);
    MirroredRun(start, steps);
    NoStrays(s.rows, user, kind, value, later);
    PurgeIsFinalUnless(s, userId, kind, value, later, link, link');
    HitsHaveValues(s, Run(start, steps).now, kind, value, later);
    hide Sound, Unique;
  }

  lemma HitsHaveValues(s: Store, now: int, kind: Kind, value: string, later: int)
    requires Sound(s, now)
    ensures CacheHit(s, kind, value, later) ==> value != ""
  {
    hide LookupCacheKey;
  }

  /** A row that answered a removal held all the token's credentials. */
  lemma NothingElseServes(s: Store, kind: Kind, value: string, k: Kind, now: int, later: int, link: CacheLink)
    requires Unique(s) && Mirrored(s.rows) && !CacheHit(s, kind, value, now)
    requires Get(s, kind, value, now, link).reply.Found?
    requires Part(Get(s, kind, value, now, link).reply.token, k).value != ""
    ensures !RowsServe(RowsWithout(s.rows, kind, value), k, Part(Get(s, kind, value, now, link).reply.token, k).value,
                       later)
  {
    var id := FindRecord(s.rows, kind, value).value;
    hide ExpiredForLookup, CacheToken, DropKeys, TokenKeys, FindRecord, LookupCacheKey;
    var token := Get(s, kind, value, now, link).reply.token;
    assert s.rows[id] == RecordOf(token);
    assert forall other :: other in s.rows && Column(s.rows[other], k) == Part(token, k).value ==> other == id;
  }

  /** In every run of a store whose rows are all its own: once its row is gone, a token that was found and
      removed by one credential is served under any of them by the cache alone, and only if deletions
      there fail. */
  lemma RemovedRowsAreGone(start: World, steps: seq<Step>, kind: Kind, value: string, k: Kind, later: int,
                           link: CacheLink, link': CacheLink)
    requires Mirrored(start.store.rows) && Unique(start.store) && start.store.cache == map[]
    requires Run(start, steps).now <= later
    requires Get(Run(start, steps).store, kind, value, Run(start, steps).now, link).reply.Found?
    requires !CacheHit(Run(start, steps).store, kind, value, Run(start, steps).now)
    ensures var s, now := Run(start, steps).store, Run(start, steps).now;
            var token := Get(s, kind, value, now, link).reply.token;
            var v := Part(token, k).value;
            Get(Remove(s, kind, value, now, link), k, v, later, link').reply.Found?
            <==> && v != "" && s.hasCache && link'.getOk && !link.delOk
                 && (if k in link.setOk && !ExpiredForLookup(token, k, now) then !ExpiredForLookup(token, k, later)
                     else CacheHit(s, k, v, later))
  {
    hide Run, Get, Remove, RowsServe, RowsWithout, CacheHit, ExpiredForLookup, Mirrored;
    var s, now := Run(start, steps).store, Run(start, steps).now;
    RunKeeps(start, steps);
    MirroredRun(start, steps);
    CredentialsAfterRemoval(s, kind, value, k, now, later, link, link');
    if Part(Get(s, kind, value, now, link).reply.token, k).value != "" {
      NothingElseServes(s, kind, value, k, now, later, link);
    }
    hide Sound, Unique;
  }
}
