/**
 The OAuth token store: database rows in front of which sits a cache whose hits are returned
 without any check.  Cache reads, writes and deletes may fail one by one.
 */
module TokenStore {
  import opened Strings
  import opened Wrappers
  import opened TokenExpiry

  /** What a row's `data` column holds: nothing (old rows), text that does not parse, or a token. */
  datatype Payload = Empty | Malformed | Encoded(token: Token)

  datatype Row = Row(userId: string, code: string, access: string, refresh: string, data: Payload)

  datatype Entry = Entry(token: Token, deadline: Option<int>)

  datatype Store = Store(hasCache: bool, rows: map<nat, Row>, cache: map<string, Entry>, nextId: nat)

  /** Which cache commands of one call get through. */
  datatype CacheLink = CacheLink(getOk: bool, setOk: set<Kind>, delOk: bool)

  datatype Reply = Found(token: Token) | Nothing | Failed

  /** The outcome of a lookup: the reply, the row it was read from if any, and the new state. */
  datatype Lookup = Lookup(reply: Reply, record: Option<nat>, store: Store)

  function LookupCacheKey(kind: Kind, value: string): string {
    match kind
    case Code => "oauth:code:" + value
    case Refresh => "oauth:refresh:" + value
    case Access => "oauth:access:" + value
  }

  function Column(row: Row, kind: Kind): string {
    match kind
    case Code => row.code
    case Access => row.access
    case Refresh => row.refresh
  }

  predicate Live(e: Entry, now: int) {
    e.deadline.None? || now < e.deadline.value
  }

  // ---------- effects on the cache ----------

  function CacheLookup(cache: map<string, Entry>, kind: Kind, token: Token, now: int, ok: bool): map<string, Entry> {
    var value, ttl := Part(token, kind).value, Ttl(token, kind, now);
    if value == "" || ttl < 0 || !ok then cache
    else cache[LookupCacheKey(kind, value) := Entry(token, if ttl == 0 then None else Some(now + ttl))]
  }

  function CacheToken(s: Store, token: Token, now: int, link: CacheLink): (r: Store)
    ensures r == s.(cache := r.cache)
  {
    if !s.hasCache then s
    else
      var c1 := CacheLookup(s.cache, Code, token, now, Code in link.setOk);
      var c2 := CacheLookup(c1, Access, token, now, Access in link.setOk);
      s.(cache := CacheLookup(c2, Refresh, token, now, Refresh in link.setOk))
  }

  /** The cache keys of a token's non-empty credentials. */
  function TokenKeys(token: Token): set<string> {
    (if token.code.value == "" then {} else {LookupCacheKey(Code, token.code.value)})
    + (if token.access.value == "" then {} else {LookupCacheKey(Access, token.access.value)})
    + (if token.refresh.value == "" then {} else {LookupCacheKey(Refresh, token.refresh.value)})
  }

  function DropKeys(s: Store, keys: set<string>, link: CacheLink): (r: Store)
    ensures r == s.(cache := r.cache)
  {
    if !s.hasCache || !link.delOk then s else s.(cache := s.cache - keys)
  }

  // ---------- effects on the rows ----------

  function RecordOf(token: Token): Row {
    Row(token.userId, token.code.value, token.access.value, token.refresh.value, Encoded(token))
  }

  /** A row that shares a non-empty credential with the token. */
  predicate Collides(row: Row, token: Token) {
    || (token.code.value != "" && row.code == token.code.value)
    || (token.access.value != "" && row.access == token.access.value)
    || (token.refresh.value != "" && row.refresh == token.refresh.value)
  }

  function WithoutColliding(rows: map<nat, Row>, token: Token): map<nat, Row> {
    map id | id in rows && !Collides(rows[id], token) :: rows[id]
  }

  /** `id` is the newest row whose column holds the value. */
  predicate Newest(rows: map<nat, Row>, kind: Kind, value: string, id: nat) {
    && id in rows && Column(rows[id], kind) == value
    && forall other :: other in rows && Column(rows[other], kind) == value ==> other <= id
  }

  ghost function FindRecord(rows: map<nat, Row>, kind: Kind, value: string): (r: Option<nat>)
    ensures r.Some? ==> Newest(rows, kind, value, r.value)
  {
    if exists id :: Newest(rows, kind, value, id) then
      var id :| Newest(rows, kind, value, id);
      Some(id)
    else None
  }

  // ---------- the operations ----------

  function Create(s: Store, token: Token, now: int, link: CacheLink): Store {
    var rows := WithoutColliding(s.rows, token)[s.nextId := RecordOf(token)];
    CacheToken(s.(rows := rows, nextId := s.nextId + 1), token, now, link)
  }

  ghost function Get(s: Store, kind: Kind, value: string, now: int, link: CacheLink): Lookup {
    var key := LookupCacheKey(kind, value);
    if value == "" then Lookup(Nothing, None, s)
    else if s.hasCache && !link.getOk then Lookup(Failed, None, s)
    else if s.hasCache && key in s.cache && Live(s.cache[key], now) then
      Lookup(Found(s.cache[key].token), None, s)
    else
      match FindRecord(s.rows, kind, value)
      case None => Lookup(Nothing, None, s)
      case Some(id) => FromRow(s, kind, value, id, now, link)
  }

  /** The answer of the row found for a value that the cache does not hold. */
  function FromRow(s: Store, kind: Kind, value: string, id: nat, now: int, link: CacheLink): Lookup
    requires id in s.rows
  {
    match s.rows[id].data
    case Malformed => Lookup(Failed, None, s)
    case Empty => Lookup(Nothing, Some(id), s)
    case Encoded(token) =>
      if ExpiredForLookup(token, kind, now) then
        Lookup(Nothing, None, DropKeys(s.(rows := s.rows - {id}), TokenKeys(token), link))
      else if !Matches(token, kind, value) then Lookup(Nothing, None, s)
      else Lookup(Found(token), Some(id), CacheToken(s, token, now, link))
  }

  ghost function Remove(s: Store, kind: Kind, value: string, now: int, link: CacheLink): Store {
    if value == "" then s
    else
      var got := Get(s, kind, value, now, link);
      if got.reply.Failed? then got.store
      else
        var s1 := if got.record.Some? then got.store.(rows := got.store.rows - {got.record.value}) else got.store;
        if got.reply.Found? then DropKeys(s1, TokenKeys(got.reply.token), link)
        else DropKeys(s1, {LookupCacheKey(kind, value)}, link)
  }

  // ---------- purging a user ----------

  function RowKeys(row: Row): set<string> {
    var code, access, refresh := TrimSpace(row.code), TrimSpace(row.access), TrimSpace(row.refresh);
    (if code == "" then {} else {LookupCacheKey(Code, code)})
    + (if access == "" then {} else {LookupCacheKey(Access, access)})
    + (if refresh == "" then {} else {LookupCacheKey(Refresh, refresh)})
  }

  /** The cache keys of several rows. */
  ghost function KeysOf(rows: map<nat, Row>, ids: set<nat>): set<string>
    requires ids <= rows.Keys
  {
    set id, key | id in ids && key in RowKeys(rows[id]) :: key
  }

  lemma KeysOfAdd(rows: map<nat, Row>, ids: set<nat>, id: nat)
    requires ids <= rows.Keys && id in rows
    ensures KeysOf(rows, ids + {id}) == KeysOf(rows, ids) + RowKeys(rows[id])
  {
    hide RowKeys;
  }

  ghost function OwnedBy(rows: map<nat, Row>, user: string): set<nat> {
    set id | id in rows && rows[id].userId == user
  }

  /** The rows of a user, loaded. */
  function RecordsOf(rows: map<nat, Row>, user: string): (records: map<nat, Row>)
    ensures records.Keys == OwnedBy(rows, user)
    ensures KeysOf(records, records.Keys) == KeysOf(rows, OwnedBy(rows, user))
  {
    var records := map id | id in rows && rows[id].userId == user :: rows[id];
    assert records.Keys == OwnedBy(rows, user);
    records
  }

  ghost function Purge(s: Store, userId: string, link: CacheLink): Store {
    var user := TrimSpace(userId);
    var owned := OwnedBy(s.rows, user);
    if user == "" || owned == {} then s
    else
      DropKeys(s.(rows := s.rows - owned), KeysOf(s.rows, owned), link)
  }

  // ---------- what every operation keeps ----------

  /** From `now` on the entry is served exactly while its token is valid for this lookup. */
  ghost predicate Faithful(e: Entry, kind: Kind, value: string, now: int) {
    && value != "" && Matches(e.token, kind, value)
    && forall t: int :: now <= t ==> (Live(e, t) <==> !ExpiredForLookup(e.token, kind, t))
  }

  /** Every cache entry is faithful to the key it is stored under. */
  ghost predicate Sound(s: Store, now: int) {
    forall kind: Kind, value: string :: LookupCacheKey(kind, value) in s.cache
      ==> Faithful(s.cache[LookupCacheKey(kind, value)], kind, value, now)
  }

  /** Row ids in use are below the next one, and no non-empty credential occurs in two rows. */
  ghost predicate Unique(s: Store) {
    && (forall id :: id in s.rows ==> id < s.nextId)
    && (forall i, j, kind: Kind | i in s.rows && j in s.rows
          && Column(s.rows[i], kind) == Column(s.rows[j], kind) != "" :: i == j)
  }

  lemma KeysAreInjective(k1: Kind, v1: string, k2: Kind, v2: string)
    requires LookupCacheKey(k1, v1) == LookupCacheKey(k2, v2)
    ensures k1 == k2 && v1 == v2
  {
    var key1, key2 := LookupCacheKey(k1, v1), LookupCacheKey(k2, v2);
    assert k1 == k2 by {
      assert key1[6] == key2[6];
    }
    var skip := |key1| - |v1|;
    assert v1 == key1[skip..] && v2 == key2[skip..];
  }

  lemma CacheLookupKeepsSound(s: Store, kind: Kind, token: Token, now: int, ok: bool)
    requires Sound(s, now)
    ensures Sound(s.(cache := CacheLookup(s.cache, kind, token, now, ok)), now)
  {
    var s' := s.(cache := CacheLookup(s.cache, kind, token, now, ok));
    var written := LookupCacheKey(kind, Part(token, kind).value);
    forall k: Kind, v: string | LookupCacheKey(k, v) in s'.cache
      ensures Faithful(s'.cache[LookupCacheKey(k, v)], k, v, now)
    {
      if s'.cache != s.cache && LookupCacheKey(k, v) == written {
        KeysAreInjective(k, v, kind, Part(token, kind).value);
        forall t: int | now <= t
          ensures Live(s'.cache[written], t) <==> !ExpiredForLookup(token, kind, t)
        {
          TtlIsExact(token, kind, now, t);
        }
      }
    }
  }

  lemma CacheTokenKeepsSound(s: Store, token: Token, now: int, link: CacheLink)
    requires Sound(s, now)
    ensures Sound(CacheToken(s, token, now, link), now)
  {
    if s.hasCache {
      var s1 := s.(cache := CacheLookup(s.cache, Code, token, now, Code in link.setOk));
      var s2 := s.(cache := CacheLookup(s1.cache, Access, token, now, Access in link.setOk));
      CacheLookupKeepsSound(s, Code, token, now, Code in link.setOk);
      CacheLookupKeepsSound(s1, Access, token, now, Access in link.setOk);
      CacheLookupKeepsSound(s2, Refresh, token, now, Refresh in link.setOk);
    }
  }

  lemma CreateKeeps(s: Store, token: Token, now: int, link: CacheLink)
    requires Sound(s, now)
    ensures Sound(Create(s, token, now, link), now)
    ensures Unique(s) ==> Unique(Create(s, token, now, link))
  {
    var rows := WithoutColliding(s.rows, token)[s.nextId := RecordOf(token)];
    CacheTokenKeepsSound(s.(rows := rows, nextId := s.nextId + 1), token, now, link);
    if Unique(s) {
      assert forall id, kind: Kind | id in WithoutColliding(s.rows, token) && Column(s.rows[id], kind) != ""
          :: Column(s.rows[id], kind) != Column(RecordOf(token), kind);
    }
  }

  /** A lookup keeps the cache sound, and what it returns carries the value and is unexpired. */
  lemma GetKeeps(s: Store, kind: Kind, value: string, now: int, link: CacheLink)
    requires Sound(s, now)
    ensures var got := Get(s, kind, value, now, link);
            && Sound(got.store, now)
            && (Unique(s) ==> Unique(got.store))
            && (got.reply.Found? ==> value != "" && Matches(got.reply.token, kind, value)
                                     && !ExpiredForLookup(got.reply.token, kind, now))
  {
    hide FromRow;
    var found := FindRecord(s.rows, kind, value);
    if value != "" && found.Some? {
      FromRowKeeps(s, kind, value, found.value, now, link);
    }
    hide FindRecord, Unique;
  }

  lemma FromRowKeeps(s: Store, kind: Kind, value: string, id: nat, now: int, link: CacheLink)
    requires Sound(s, now) && id in s.rows && value != ""
    ensures var got := FromRow(s, kind, value, id, now, link);
            && Sound(got.store, now)
            && (Unique(s) ==> Unique(got.store))
            && (got.reply.Found? ==> Matches(got.reply.token, kind, value)
                                     && !ExpiredForLookup(got.reply.token, kind, now))
  {
    if s.rows[id].data.Encoded? {
      var token := s.rows[id].data.token;
      hide Ttl, Faithful;
      if ExpiredForLookup(token, kind, now) {
        DropKeepsSound(s.(rows := s.rows - {id}), TokenKeys(token), now, link);
      } else if Matches(token, kind, value) {
        CacheTokenKeepsSound(s, token, now, link);
      }
    }
    hide Sound, CacheToken, DropKeys, ExpiredForLookup;
  }

  lemma DropKeepsSound(s: Store, keys: set<string>, now: int, link: CacheLink)
    requires Sound(s, now)
    ensures Sound(DropKeys(s, keys, link), now)
  {
  }

  lemma RemoveKeeps(s: Store, kind: Kind, value: string, now: int, link: CacheLink)
    requires Sound(s, now)
    ensures Sound(Remove(s, kind, value, now, link), now)
    ensures Unique(s) ==> Unique(Remove(s, kind, value, now, link))
  {
    GetKeeps(s, kind, value, now, link);
  }

  lemma PurgeKeeps(s: Store, userId: string, now: int, link: CacheLink)
    requires Sound(s, now)
    ensures Sound(Purge(s, userId, link), now)
    ensures Unique(s) ==> Unique(Purge(s, userId, link))
    ensures TrimSpace(userId) != "" ==> OwnedBy(Purge(s, userId, link).rows, TrimSpace(userId)) == {}
  {
  }

  // ---------- runs ----------

  datatype Step =
    | Elapse(duration: nat)
    | CreateStep(token: Token, link: CacheLink)
    | GetStep(kind: Kind, value: string, link: CacheLink)
    | RemoveStep(kind: Kind, value: string, link: CacheLink)
    | PurgeStep(userId: string, link: CacheLink)
    | Evict(key: string)

  datatype World = World(store: Store, now: int)

  ghost function Take(w: World, step: Step): World {
    match step
    case Elapse(d) => w.(now := w.now + d)
    case CreateStep(token, link) => w.(store := Create(w.store, token, w.now, link))
    case GetStep(kind, value, link) => w.(store := Get(w.store, kind, value, w.now, link).store)
    case RemoveStep(kind, value, link) => w.(store := Remove(w.store, kind, value, w.now, link))
    case PurgeStep(userId, link) => w.(store := Purge(w.store, userId, link))
    case Evict(key) => w.(store := w.store.(cache := w.store.cache - {key}))
  }

  ghost function Run(w: World, steps: seq<Step>): World
    decreases |steps|
  {
    if steps == [] then w else Run(Take(w, steps[0]), steps[1..])
  }

  lemma {:induction false} RunKeeps(w: World, steps: seq<Step>)
    requires Sound(w.store, w.now)
    ensures Sound(Run(w, steps).store, Run(w, steps).now)
    ensures Unique(w.store) ==> Unique(Run(w, steps).store)
    decreases |steps|
  {
    if steps != [] {
      match steps[0] {
        case Elapse(d) =>
        case CreateStep(token, link) => CreateKeeps(w.store, token, w.now, link);
        case GetStep(kind, value, link) => GetKeeps(w.store, kind, value, w.now, link);
        case RemoveStep(kind, value, link) => RemoveKeeps(w.store, kind, value, w.now, link);
        case PurgeStep(userId, link) => PurgeKeeps(w.store, userId, w.now, link);
        case Evict(key) =>
      }
      RunKeeps(Take(w, steps[0]), steps[1..]);
    }
  }

  /** In every run from an empty cache, whatever rows there are, a lookup never returns a token
      that lacks the looked-up value or has expired for this kind of lookup. */
  lemma LookupsAreSafe(w: World, steps: seq<Step>, kind: Kind, value: string, link: CacheLink)
    requires w.store.cache == map[]
    ensures var w' := Run(w, steps);
            var reply := Get(w'.store, kind, value, w'.now, link).reply;
            reply.Found? ==> value != "" && Matches(reply.token, kind, value)
                             && !ExpiredForLookup(reply.token, kind, w'.now)
  {
    RunKeeps(w, steps);
    var w' := Run(w, steps);
    GetKeeps(w'.store, kind, value, w'.now, link);
  }

  // ---------- what answers a lookup ----------

  lemma FindUnique(rows: map<nat, Row>, kind: Kind, value: string, id: nat)
    requires Newest(rows, kind, value, id)
    ensures FindRecord(rows, kind, value) == Some(id)
  {
  }

  ghost predicate CacheHit(s: Store, kind: Kind, value: string, now: int) {
    var key := LookupCacheKey(kind, value);
    s.hasCache && key in s.cache && Live(s.cache[key], now)
  }
}
