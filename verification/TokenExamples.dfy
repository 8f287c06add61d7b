/**
 Short runs that reach what the token store does not rule out.
 */
module TokenExamples {
  import opened Strings
  import opened Wrappers
  import opened TokenExpiry
  import opened TokenStore
  import opened TokenFinality

  const WORKING: CacheLink := CacheLink(true, {Code, Access, Refresh}, true)

  function Fresh(): Store { Store(true, map[], map[], 1) }

  /** A user's token that is good for a while, under its access credential only. */
  function ShortToken(): Token {
    Token("user", Credential("", None, 0), Credential("a", Some(0), 10), Credential("", None, 0))
  }

  /** The same user's token with a refresh credential as well. */
  function PairToken(): Token {
    Token("user", Credential("", None, 0), Credential("a", Some(0), 10), Credential("r", Some(0), 20))
  }

  /** Another user's token with the same access credential. */
  function RivalToken(): Token {
    Token("rival", Credential("", None, 0), Credential("a", Some(0), 10), Credential("", None, 0))
  }

  lemma TwoSteps(w: World, a: Step, b: Step)
    ensures Run(w, [a, b]) == Take(Take(w, a), b)
  {
    hide Take;
    assert [a, b][1..] == [b] && [b][1..] == [];
    assert Run(w, [a, b]) == Run(Take(w, a), [b]);
  }

  lemma ThreeSteps(w: World, a: Step, b: Step, c: Step)
    ensures Run(w, [a, b, c]) == Take(Take(Take(w, a), b), c)
  {
    hide Take;
    assert [a, b, c][1..] == [b, c] && [b, c][1..] == [c] && [c][1..] == [];
    var w1 := Take(w, a);
    assert Run(w, [a, b, c]) == Run(w1, [b, c]) == Run(Take(w1, b), [c]);
  }

  /** After its creation in an empty store a token's credential is in the cache. */
  lemma FreshlyCreated(token: Token, kind: Kind)
    requires Part(token, kind).value != "" && !ExpiredForLookup(token, kind, 0)
    ensures var s := Create(Fresh(), token, 0, WORKING);
            && s.hasCache && s.rows == map[1 := RecordOf(token)] && s.nextId == 2 && Sound(s, 0) && Unique(s)
            && CacheHit(s, kind, Part(token, kind).value, 0)
            && s.cache[LookupCacheKey(kind, Part(token, kind).value)].token == token
  {
    CreateKeeps(Fresh(), token, 0, WORKING);
    CreatedEntry(Fresh(), token, kind, 0, 0, WORKING);
    hide CacheToken, Sound, LookupCacheKey, ExpiredForLookup;
  }

  // ---------- removals that are not final ----------

  /** With a cache that loses nothing: create a token, remove it by its access credential, and look it
      up: it is found. */
  lemma RemovedTokenReturns()
    ensures var steps := [CreateStep(ShortToken(), WORKING), RemoveStep(Access, "a", WORKING)];
            var w := Run(World(Fresh(), 0), steps);
            Get(w.store, Access, "a", w.now, WORKING).reply.Found?
  {
    var s := Create(Fresh(), ShortToken(), 0, WORKING);
    FreshlyCreated(ShortToken(), Access);
    assert 1 in s.rows && RowsServe(s.rows, Access, "a", 0);
    hide Create, Remove, Get, Sound, Unique, RowsServe, LookupCacheKey, Run;
    RemovalIsFinalUnless(s, Access, "a", 0, 0, WORKING, WORKING);
    TwoSteps(World(Fresh(), 0), CreateStep(ShortToken(), WORKING), RemoveStep(Access, "a", WORKING));
  }

  /** The same when the first lookup misses the cache, and the entry that it writes back cannot be
      deleted: the row is gone, and the token is still served. */
  lemma RemovedTokenStaysCached()
    ensures var stuck := CacheLink(true, {Code, Access, Refresh}, false);
            var steps := [CreateStep(ShortToken(), WORKING), Evict(LookupCacheKey(Access, "a")),
                          RemoveStep(Access, "a", stuck)];
            var w := Run(World(Fresh(), 0), steps);
            w.store.rows == map[] && Get(w.store, Access, "a", w.now, stuck).reply.Found?
  {
    var stuck := CacheLink(true, {Code, Access, Refresh}, false);
    hide Remove, Create, Get, LookupCacheKey, RowsServe, Run, Sound, Unique;
    FreshlyCreated(ShortToken(), Access);
    EvictedRow(Create(Fresh(), ShortToken(), 0, WORKING), stuck);
    ThreeSteps(World(Fresh(), 0), CreateStep(ShortToken(), WORKING), Evict(LookupCacheKey(Access, "a")),
               RemoveStep(Access, "a", stuck));
  }

  lemma EvictedRow(s: Store, link: CacheLink)
    requires s.hasCache && s.rows == map[1 := RecordOf(ShortToken())] && s.nextId == 2 && Sound(s, 0)
    requires link == CacheLink(true, {Code, Access, Refresh}, false)
    ensures var after := Remove(s.(cache := s.cache - {LookupCacheKey(Access, "a")}), Access, "a", 0, link);
            after.rows == map[] && Get(after, Access, "a", 0, link).reply.Found?
  {
    var missing := s.(cache := s.cache - {LookupCacheKey(Access, "a")});
    assert Sound(missing, 0) && Unique(missing);
    assert 1 in missing.rows && RowsServe(missing.rows, Access, "a", 0);
    FindUnique(missing.rows, Access, "a", 1);
    hide Remove, Get, Sound, RowsServe, LookupCacheKey;
    RemovedRows(missing, Access, "a", 1, 0, link);
    assert missing.rows - {1} == map[];
    RemovalIsFinalUnless(missing, Access, "a", 0, 0, link, link);
  }

  /** A removal for which the cache could not be read removes nothing. */
  lemma UnreadRemovalKeepsToken()
    ensures var unread := CacheLink(false, {Code, Access, Refresh}, true);
            var steps := [CreateStep(ShortToken(), WORKING), RemoveStep(Access, "a", unread)];
            var w := Run(World(Fresh(), 0), steps);
            Get(w.store, Access, "a", w.now, WORKING).reply.Found?
  {
    var unread := CacheLink(false, {Code, Access, Refresh}, true);
    FreshlyCreated(ShortToken(), Access);
    FailedRemoval(Create(Fresh(), ShortToken(), 0, WORKING), Access, "a", 0, unread);
    TwoSteps(World(Fresh(), 0), CreateStep(ShortToken(), WORKING), RemoveStep(Access, "a", unread));
    hide Create, Remove, Sound, Unique, LookupCacheKey, Run;
  }

  /** Removed by its access credential, a token is still found by its refresh credential. */
  lemma OtherCredentialReturns()
    ensures var steps := [CreateStep(PairToken(), WORKING), RemoveStep(Access, "a", WORKING)];
            var w := Run(World(Fresh(), 0), steps);
            Get(w.store, Refresh, "r", w.now, WORKING).reply.Found?
  {
    var s := Create(Fresh(), PairToken(), 0, WORKING);
    FreshlyCreated(PairToken(), Access);
    assert 1 in s.rows && RowsServe(s.rows, Refresh, "r", 0);
    hide Create, Remove, Sound, Unique, RowsServe, LookupCacheKey, Run, RowsWithout;
    assert Get(s, Access, "a", 0, WORKING).reply == Found(PairToken());
    CredentialsAfterRemoval(s, Access, "a", Refresh, 0, 0, WORKING, WORKING);
    TwoSteps(World(Fresh(), 0), CreateStep(PairToken(), WORKING), RemoveStep(Access, "a", WORKING));
  }

  // ---------- creations and purges ----------

  /** A creation whose cache write is lost: the row of the older token is replaced, and a lookup still
      returns that token. */
  lemma StaleEntryIsServed()
    ensures var steps := [CreateStep(ShortToken(), WORKING), CreateStep(RivalToken(), CacheLink(true, {}, true))];
            var w := Run(World(Fresh(), 0), steps);
            && w.store.rows == map[2 := RecordOf(RivalToken())]
            && Get(w.store, Access, "a", w.now, WORKING).reply == Found(ShortToken())
  {
    var lossy := CacheLink(true, {}, true);
    var s := Create(Fresh(), ShortToken(), 0, WORKING);
    FreshlyCreated(ShortToken(), Access);
    CreateThenGet(s, RivalToken(), Access, 0, 0, lossy, WORKING);
    assert Create(s, RivalToken(), 0, lossy).rows == map[2 := RecordOf(RivalToken())];
    TwoSteps(World(Fresh(), 0), CreateStep(ShortToken(), WORKING), CreateStep(RivalToken(), lossy));
    hide Create, Get, Sound, Unique, LookupCacheKey, Run;
  }

  /** A cache that loses nothing: the user's token loses its row to another token with the same access
      credential, the user is purged, and a lookup by the refresh credential returns the token. */
  lemma PurgedUserIsServed()
    ensures var steps := [CreateStep(PairToken(), WORKING), CreateStep(RivalToken(), WORKING),
                          PurgeStep("user", WORKING)];
            var w := Run(World(Fresh(), 0), steps);
            Get(w.store, Refresh, "r", w.now, WORKING).reply == Found(PairToken())
  {
    hide Create, Purge, Sound, Unique, LookupCacheKey, Run, FromRow, Fresh;
    var s := Create(Fresh(), PairToken(), 0, WORKING);
    FreshlyCreated(PairToken(), Refresh);
    RivalTakesOver(s);
    NothingToPurge(Create(s, RivalToken(), 0, WORKING));
    ThreeSteps(World(Fresh(), 0), CreateStep(PairToken(), WORKING), CreateStep(RivalToken(), WORKING),
               PurgeStep("user", WORKING));
  }

  lemma RivalTakesOver(s: Store)
    requires s.hasCache && s.rows == map[1 := RecordOf(PairToken())] && s.nextId == 2
    ensures var s2, key := Create(s, RivalToken(), 0, WORKING), LookupCacheKey(Refresh, "r");
            && s2.hasCache && s2.rows == map[2 := RecordOf(RivalToken())] && SameEntry(s.cache, s2.cache, key)
  {
    SameKey(Access, "a", Refresh, "r");
    hide LookupCacheKey;
    assert WithoutColliding(s.rows, RivalToken()) == map[];
  }

  lemma NothingToPurge(s: Store)
    requires s.rows == map[2 := RecordOf(RivalToken())]
    ensures Purge(s, "user", WORKING) == s
  {
    assert OwnedBy(s.rows, TrimSpace("user")) == {} by {
      assert TrimLeft("user") == "user" && TrimRight("user") == "user";
    }
  }
}
