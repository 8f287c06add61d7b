/** The token store as the object the server holds: its methods update the rows and the cache. */
module PostgresTokenStore {
  import opened Strings
  import opened Wrappers
  import opened TokenExpiry
  import opened TokenStore

  class PostgresTokenStore {
    const hasCache: bool
    var rows: map<nat, Row>
    var cache: map<string, Entry>
    var nextId: nat

    ghost function State(): Store
      reads this
    {
      Store(hasCache, rows, cache, nextId)
    }

    /** The cache can be trusted at `now`; methods keep this, and time does not break it. */
    ghost predicate Valid(now: int)
      reads this
    {
      Sound(State(), now)
    }

    constructor (hasCache: bool, rows: map<nat, Row>, nextId: nat)
      ensures State() == Store(hasCache, rows, map[], nextId)
      ensures forall now: int :: Valid(now)
    {
      this.hasCache, this.rows, this.nextId, this.cache := hasCache, rows, nextId, map[];
    }

    method Create(token: Token, now: int, link: CacheLink)
      requires Valid(now)
      modifies this
      ensures State() == old(TokenStore.Create(State(), token, now, link))
      ensures Valid(now) && (old(Unique(State())) ==> Unique(State()))
      ensures forall id :: id in rows <==>
                || id == old(nextId)
                || (id in old(rows)
                    && (token.code.value == "" || old(rows)[id].code != token.code.value)
                    && (token.access.value == "" || old(rows)[id].access != token.access.value)
                    && (token.refresh.value == "" || old(rows)[id].refresh != token.refresh.value))
      ensures forall id :: id in rows && id != old(nextId) ==> rows[id] == old(rows)[id]
    {
      CreateKeeps(State(), token, now, link);
      var record := RecordOf(token);
      DeleteMatchingTokenRows(token);
      rows := rows[nextId := record];
      nextId := nextId + 1;
      CacheToken(token, now, link);
    }

    method DeleteMatchingTokenRows(token: Token)
      modifies this`rows
      ensures rows == WithoutColliding(old(rows), token)
      ensures forall id :: id in rows <==>
                && id in old(rows)
                && (token.code.value == "" || old(rows)[id].code != token.code.value)
                && (token.access.value == "" || old(rows)[id].access != token.access.value)
                && (token.refresh.value == "" || old(rows)[id].refresh != token.refresh.value)
    {
      rows := map id | id in rows && !Collides(rows[id], token) :: rows[id];
    }

    method CacheToken(token: Token, now: int, link: CacheLink)
      modifies this`cache
      ensures State() == old(TokenStore.CacheToken(State(), token, now, link))
    {
      if !hasCache {
        return;
      }
      CacheLookup(Code, token.code.value, token, Ttl(token, Code, now), now, Code in link.setOk);
      CacheLookup(Access, token.access.value, token, Ttl(token, Access, now), now, Access in link.setOk);
      CacheLookup(Refresh, token.refresh.value, token, Ttl(token, Refresh, now), now, Refresh in link.setOk);
    }

    method CacheLookup(kind: Kind, value: string, token: Token, ttl: int, now: int, ok: bool)
      requires value == Part(token, kind).value && ttl == Ttl(token, kind, now)
      modifies this`cache
      ensures cache == TokenStore.CacheLookup(old(cache), kind, token, now, ok)
    {
      if value == "" || ttl < 0 {
        return;
      }
      var key := LookupCacheKey(kind, value);
      if ttl == 0 {
        if ok {
          cache := cache[key := Entry(token, None)];
        }
        return;
      }
      if ok {
        cache := cache[key := Entry(token, Some(now + ttl))];
      }
    }

    method DeleteCacheKeys(token: Token, link: CacheLink)
      modifies this`cache
      ensures State() == old(DropKeys(State(), TokenKeys(token), link))
    {
      if !hasCache {
        return;
      }
      var keys := {};
      if token.code.value != "" {
        keys := keys + {LookupCacheKey(Code, token.code.value)};
      }
      if token.access.value != "" {
        keys := keys + {LookupCacheKey(Access, token.access.value)};
      }
      if token.refresh.value != "" {
        keys := keys + {LookupCacheKey(Refresh, token.refresh.value)};
      }
      assert keys == TokenKeys(token);
      if keys == {} {
        assert cache == cache - keys;
        return;
      }
      if link.delOk {
        cache := cache - keys;
      }
    }

    /** The newest row that holds the value. */
    method FindTokenRecord(kind: Kind, value: string) returns (record: Option<nat>)
      ensures record == FindRecord(rows, kind, value)
    {
      if id :| id in rows && Newest(rows, kind, value, id) {
        FindUnique(rows, kind, value, id);
        return Some(id);
      }
      assert forall id :: id in rows ==> !Newest(rows, kind, value, id);
      return None;
    }

    /** A hit is returned as it is, without looking at its value or its expiry. */
    method GetCachedToken(kind: Kind, value: string, now: int, link: CacheLink) returns (reply: Reply)
      ensures reply == (if hasCache && !link.getOk then Failed
                        else if CacheHit(State(), kind, value, now) then Found(cache[LookupCacheKey(kind, value)].token)
                        else Nothing)
    {
      if !hasCache {
        return Nothing;
      }
      if !link.getOk {
        return Failed;
      }
      var key := LookupCacheKey(kind, value);
      if key in cache && Live(cache[key], now) {
        return Found(cache[key].token);
      }
      return Nothing;
    }

    method GetByLookup(kind: Kind, value: string, now: int, link: CacheLink) returns (reply: Reply, record: Option<nat>)
      requires Valid(now)
      modifies this
      ensures Lookup(reply, record, State()) == old(Get(State(), kind, value, now, link))
      ensures Valid(now) && (old(Unique(State())) ==> Unique(State()))
      ensures reply.Found? ==> value != "" && Matches(reply.token, kind, value)
                               && !ExpiredForLookup(reply.token, kind, now)
    {
      GetKeeps(State(), kind, value, now, link);
      hide Sound, Unique, ExpiredForLookup, FromRow;
      if value == "" {
        return Nothing, None;
      }
      var cached := GetCachedToken(kind, value, now, link);
      if !cached.Nothing? {
        return cached, None;
      }
      var found := FindTokenRecord(kind, value);
      if found.None? {
        return Nothing, None;
      }
      reply, record := AnswerFromRow(kind, value, found.value, now, link);
    }

    method AnswerFromRow(kind: Kind, value: string, id: nat, now: int, link: CacheLink)
      returns (reply: Reply, record: Option<nat>)
      requires id in rows
      modifies this
      ensures Lookup(reply, record, State()) == old(FromRow(State(), kind, value, id, now, link))
    {
      hide ExpiredForLookup, TokenStore.CacheToken, DropKeys, TokenKeys;
      match rows[id].data {
        case Malformed =>
          return Failed, None;
        case Empty =>
          return Nothing, Some(id);
        case Encoded(token) =>
          if ExpiredForLookup(token, kind, now) {
            rows := rows - {id};
            DeleteCacheKeys(token, link);
            return Nothing, None;
          }
          if !Matches(token, kind, value) {
            return Nothing, None;
          }
          CacheToken(token, now, link);
          return Found(token), Some(id);
      }
    }

    method RemoveByLookup(kind: Kind, value: string, now: int, link: CacheLink)
      requires Valid(now)
      modifies this
      ensures State() == old(Remove(State(), kind, value, now, link))
      ensures Valid(now) && (old(Unique(State())) ==> Unique(State()))
    {
      RemoveKeeps(State(), kind, value, now, link);
      if value == "" {
        return;
      }
      var reply, record := GetByLookup(kind, value, now, link);
      hide Sound, Unique, ExpiredForLookup, Get;
      if reply.Failed? {
        return;
      }
      if record.Some? {
        rows := rows - {record.value};
      }
      if reply.Found? {
        DeleteCacheKeys(reply.token, link);
        return;
      }
      if hasCache && link.delOk {
        cache := cache - {LookupCacheKey(kind, value)};
      }
    }

    method PurgeTokensForUser(userId: string, link: CacheLink, ghost now: int)
      requires Valid(now)
      modifies this
      ensures State() == old(Purge(State(), userId, link))
      ensures Valid(now) && (old(Unique(State())) ==> Unique(State()))
      ensures TrimSpace(userId) != "" ==> OwnedBy(rows, TrimSpace(userId)) == {}
    {
      PurgeKeeps(State(), userId, now, link);
      hide Sound, Unique, TrimSpace;
      var user := TrimSpace(userId);
      if user == "" {
        return;
      }
      var records := RecordsOf(rows, user);
      hide RecordsOf, OwnedBy, KeysOf;
      if records == map[] {
        return;
      }
      rows := rows - records.Keys;
      if !hasCache {
        return;
      }
      var keys := CollectKeys(records);
      if keys == {} {
        assert cache == cache - keys;
        return;
      }
      if link.delOk {
        cache := cache - keys;
      }
    }

    static method RecordKeys(record: Row) returns (keys: set<string>)
      ensures keys == RowKeys(record)
    {
      keys := {};
      var code, access, refresh := TrimSpace(record.code), TrimSpace(record.access), TrimSpace(record.refresh);
      if code != "" {
        keys := keys + {LookupCacheKey(Code, code)};
      }
      if access != "" {
        keys := keys + {LookupCacheKey(Access, access)};
      }
      if refresh != "" {
        keys := keys + {LookupCacheKey(Refresh, refresh)};
      }
    }

    static method CollectKeys(records: map<nat, Row>) returns (keys: set<string>)
      ensures keys == KeysOf(records, records.Keys)
    {
      keys := {};
      var left := records.Keys;
      while left != {}
        invariant left <= records.Keys
        invariant keys == KeysOf(records, records.Keys - left)
      {
        var id :| id in left;
        KeysOfAdd(records, records.Keys - left, id);
        var own := RecordKeys(records[id]);
        keys := keys + own;
        assert records.Keys - left + {id} == records.Keys - (left - {id});
        left := left - {id};
        hide KeysOf, RowKeys;
      }
      assert records.Keys - left == records.Keys;
    }
  }
}
