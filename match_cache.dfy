/**
 * The cached query layer of the football-matches plugin
 * (`get_cached_football_matches`): the cache key, the WordPress transient
 * store as this layer sees it (a missing or expired entry reads as `false`,
 * a write overwrites and sets the expiry), and the memoising wrapper
 * around the matches lookup, both as a function on the store and as a
 * method of a class that updates the store in place and counts the
 * upstream lookups it makes in ghost state.
 */
module MatchCache {
  import opened Wrappers
  import opened QueryString
  import opened FootballApi

  const HOUR_IN_SECONDS := 3600

  /** How long a looked-up list of matches stays in the store. */
  const MATCHES_TTL := 1 * HOUR_IN_SECONDS

  const KEY_PREFIX := "football_matches_"

  /** The transient key of a query: prefix, league, start and end, joined by underscores. */
  function CacheKey(league: string, start: string, end: string): string
  {
    KEY_PREFIX + league + "_" + start + "_" + end
  }

  /** Reads a key back as (league, start, end), taking the first two underscores after the prefix as separators. */
  function ParseCacheKey(key: string): Option<(string, string, string)>
  {
    if |key| < |KEY_PREFIX| || key[..|KEY_PREFIX|] != KEY_PREFIX then None
    else match SplitFirst(key[|KEY_PREFIX|..], '_')
      case None => None
      case Some((league, rest)) =>
        match SplitFirst(rest, '_')
        case None => None
        case Some((start, end)) => Some((league, start, end))
  }

  /** A key can be read back into its query when neither league nor start date holds an underscore. */
  lemma ParseCacheKeyInverse(league: string, start: string, end: string)
    requires '_' !in league && '_' !in start
    ensures ParseCacheKey(CacheKey(league, start, end)) == Some((league, start, end))
  {
    var key := CacheKey(league, start, end);
    var rest := start + "_" + end;
    assert key == KEY_PREFIX + (league + "_" + rest);
    assert key[|KEY_PREFIX|..] == league + "_" + rest;
    SplitFirstAt(league, '_', rest);
    SplitFirstAt(start, '_', end);
  }

  /** For such queries the key is injective: equal keys mean the same query. */
  lemma CacheKeyInjective(l1: string, s1: string, e1: string, l2: string, s2: string, e2: string)
    requires '_' !in l1 && '_' !in s1 && '_' !in l2 && '_' !in s2
    ensures CacheKey(l1, s1, e1) == CacheKey(l2, s2, e2) <==> l1 == l2 && s1 == s2 && e1 == e2
  {
    ParseCacheKeyInverse(l1, s1, e1);
    ParseCacheKeyInverse(l2, s2, e2);
  }

  /** For fixed dates, whatever the strings hold, different leagues get different keys. */
  lemma CacheKeyLeagueInjective(l1: string, l2: string, start: string, end: string)
    ensures CacheKey(l1, start, end) == CacheKey(l2, start, end) <==> l1 == l2
  {
    var tail := "_" + start + "_" + end;
    var k1, k2 := CacheKey(l1, start, end), CacheKey(l2, start, end);
    assert k1 == KEY_PREFIX + l1 + tail;
    assert k2 == KEY_PREFIX + l2 + tail;
    if k1 == k2 {
      assert |l1| == |l2|;
      assert l1 == k1[|KEY_PREFIX|..|KEY_PREFIX| + |l1|];
      assert l2 == k2[|KEY_PREFIX|..|KEY_PREFIX| + |l2|];
    }
  }

  /** In general the key is not injective: an underscore in a component can move between components. */
  lemma CacheKeyCollision()
    ensures CacheKey("PL_2024-01-01", "2024-01-31", "x") == CacheKey("PL", "2024-01-01_2024-01-31", "x")
  {
  }

  /** A stored transient: the value and the time after which it has expired. */
  datatype Transient = Transient(value: Json, expiresAt: int)

  type Store = map<string, Transient>

  /** Reading a transient: the stored value while fresh, `false` when absent or expired. */
  function ReadTransient(store: Store, key: string, now: int): Json
  {
    if key in store && now <= store[key].expiresAt then store[key].value else Bool(false)
  }

  /** Writing a transient with a positive lifetime: overwrites whatever was stored and expires `ttl` seconds from now. */
  function WriteTransient(store: Store, key: string, value: Json, ttl: int, now: int): (s: Store)
    requires ttl > 0
    ensures forall t :: t <= now + ttl ==> ReadTransient(s, key, t) == value
    ensures forall t :: now + ttl < t ==> ReadTransient(s, key, t) == Bool(false)
    ensures forall k, t :: k != key ==> ReadTransient(s, k, t) == ReadTransient(store, k, t)
  {
    store[key := Transient(value, now + ttl)]
  }

  /** The effect of one cached query: the new store, the value returned, and the upstream lookup made, if any. */
  datatype Served = Served(store: Store, matches: Json, upstream: Option<Lookup>)

  /**
   * `get_cached_football_matches`: a fresh entry other than `false` is
   * returned as it is, with no lookup and no write; otherwise the matches
   * are looked up once and written under the key for an hour, and that
   * value is returned.
   */
  function CachedMatches(store: Store, apiKey: ApiKey, league: string, start: string, end: string,
                         now: int, response: Response): (o: Served)
    ensures var cached := ReadTransient(store, CacheKey(league, start, end), now);
      cached != Bool(false) ==> o.matches == cached && o.upstream == None && o.store == store
    ensures var cached := ReadTransient(store, CacheKey(league, start, end), now);
      cached == Bool(false) ==>
        && o.upstream == Some(GetFootballMatches(apiKey, league, start, end, response))
        && o.matches == o.upstream.value.items
        && o.store == WriteTransient(store, CacheKey(league, start, end), o.matches, MATCHES_TTL, now)
    ensures ReadTransient(o.store, CacheKey(league, start, end), now) == o.matches
    ensures forall k, t :: k != CacheKey(league, start, end) ==> ReadTransient(o.store, k, t) == ReadTransient(store, k, t)
  {
    var key := CacheKey(league, start, end);
    var cached := ReadTransient(store, key, now);
    if cached != Bool(false) then Served(store, cached, None)
    else
      var fetched := GetFootballMatches(apiKey, league, start, end, response);
      Served(WriteTransient(store, key, fetched.items, MATCHES_TTL, now), fetched.items, Some(fetched))
  }

  /** After a miss, the key reads as the returned value until one hour has passed, and as `false` after. */
  lemma MissIsFreshForTtl(store: Store, apiKey: ApiKey, league: string, start: string, end: string,
                          now: int, response: Response, t: int)
    requires CachedMatches(store, apiKey, league, start, end, now, response).upstream.Some?
    ensures var o := CachedMatches(store, apiKey, league, start, end, now, response);
      ReadTransient(o.store, CacheKey(league, start, end), t)
        == if t <= now + MATCHES_TTL then o.matches else Bool(false)
  {
  }

  /**
   * A second identical query within the hour after a miss makes no upstream
   * lookup and returns the same value, whatever the credential and the
   * transport do by then; the one exception is a lookup that returned
   * `false`, which reads as a miss again.
   */
  lemma RepeatWithinTtl(store: Store, apiKey: ApiKey, apiKey': ApiKey, league: string, start: string, end: string,
                        now: int, later: int, first: Response, second: Response)
    requires CachedMatches(store, apiKey, league, start, end, now, first).upstream.Some?
    requires later <= now + MATCHES_TTL
    ensures var o1 := CachedMatches(store, apiKey, league, start, end, now, first);
      var o2 := CachedMatches(o1.store, apiKey', league, start, end, later, second);
      && (o2.upstream.None? <==> o1.matches != Bool(false))
      && (o1.matches != Bool(false) ==> o2.matches == o1.matches && o2.store == o1.store)
  {
  }

  /** Once the hour has passed, the same query misses again and returns what the new lookup gives. */
  lemma RefetchAfterTtl(store: Store, apiKey: ApiKey, apiKey': ApiKey, league: string, start: string, end: string,
                        now: int, later: int, first: Response, second: Response)
    requires CachedMatches(store, apiKey, league, start, end, now, first).upstream.Some?
    requires now + MATCHES_TTL < later
    ensures var o1 := CachedMatches(store, apiKey, league, start, end, now, first);
      var o2 := CachedMatches(o1.store, apiKey', league, start, end, later, second);
      && o2.upstream == Some(GetFootballMatches(apiKey', league, start, end, second))
      && o2.matches == GetFootballMatches(apiKey', league, start, end, second).items
  {
  }

  /**
   * Failed lookups are cached too, since the empty list is not `false`: a
   * miss that ends in a missing credential, a transport error or an
   * undecodable body stores the empty list, and for the next hour the same
   * query returns the empty list and sends no request, even if a
   * credential has been configured or the API has recovered meanwhile.
   */
  lemma FailedLookupIsCached(store: Store, apiKey: ApiKey, apiKey': ApiKey, league: string, start: string, end: string,
                             now: int, later: int, first: Response, second: Response)
    requires ReadTransient(store, CacheKey(league, start, end), now) == Bool(false)
    requires Unconfigured(apiKey) || first.TransportError? || (first.Received? && first.decoded.None?)
    requires later <= now + MATCHES_TTL
    ensures var o1 := CachedMatches(store, apiKey, league, start, end, now, first);
      var o2 := CachedMatches(o1.store, apiKey', league, start, end, later, second);
      o1.matches == EMPTY_LIST && o2.matches == EMPTY_LIST && o2.upstream.None?
  {
  }

  /**
   * The worked example of a hit: with this one-match list stored under the
   * Premier League key for January 2024, the query returns exactly that
   * list and makes no lookup.
   */
  lemma CachedExampleServed(apiKey: ApiKey, now: int, response: Response)
    requires now <= 1704067200 + MATCHES_TTL
    ensures var league, start, end := "PL", "2024-01-01", "2024-01-31";
      var game := Obj(map["utcDate" := Str("2024-01-05T15:00:00Z"),
                          "homeTeam" := Obj(map["name" := Str("A")]),
                          "awayTeam" := Obj(map["name" := Str("B")])]);
      var store := map[CacheKey(league, start, end) := Transient(Arr([game]), 1704067200 + MATCHES_TTL)];
      var o := CachedMatches(store, apiKey, league, start, end, now, response);
      o.matches == Arr([game]) && o.upstream.None? && o.store == store
  {
  }

  /** A query for one league never changes what another league's key reads, for the same dates. */
  lemma LeaguesCachedSeparately(store: Store, apiKey: ApiKey, league: string, other: string, start: string, end: string,
                                now: int, response: Response, t: int)
    requires league != other
    ensures var o := CachedMatches(store, apiKey, league, start, end, now, response);
      ReadTransient(o.store, CacheKey(other, start, end), t) == ReadTransient(store, CacheKey(other, start, end), t)
  {
    CacheKeyLeagueInjective(league, other, start, end);
  }

  /**
   * Two queries whose keys collide share one entry: after a miss for the
   * first, the second, made within the hour with any credential, is served
   * the first one's result with no lookup of its own, unless that result
   * was `false`.
   */
  lemma CollidingQueriesShareEntry(store: Store, apiKey: ApiKey, apiKey': ApiKey,
                                   l1: string, s1: string, e1: string, l2: string, s2: string, e2: string,
                                   now: int, later: int, first: Response, second: Response)
    requires CacheKey(l1, s1, e1) == CacheKey(l2, s2, e2)
    requires ReadTransient(store, CacheKey(l1, s1, e1), now) == Bool(false)
    requires later <= now + MATCHES_TTL
    ensures var o1 := CachedMatches(store, apiKey, l1, s1, e1, now, first);
      var o2 := CachedMatches(o1.store, apiKey', l2, s2, e2, later, second);
      o1.matches != Bool(false) ==> o2.upstream.None? && o2.matches == o1.matches && o2.store == o1.store
  {
  }

  /** The colliding pair of `CacheKeyCollision` is such a case, though the two queries differ. */
  lemma UnderscoreQueriesShareEntry(store: Store, apiKey: ApiKey, apiKey': ApiKey,
                                    now: int, later: int, first: Response, second: Response)
    requires ReadTransient(store, CacheKey("PL_2024-01-01", "2024-01-31", "x"), now) == Bool(false)
    requires later <= now + MATCHES_TTL
    ensures var o1 := CachedMatches(store, apiKey, "PL_2024-01-01", "2024-01-31", "x", now, first);
      var o2 := CachedMatches(o1.store, apiKey', "PL", "2024-01-01_2024-01-31", "x", later, second);
      o1.matches != Bool(false) ==> o2.upstream.None? && o2.matches == o1.matches
  {
    CacheKeyCollision();
    CollidingQueriesShareEntry(store, apiKey, apiKey', "PL_2024-01-01", "2024-01-31", "x",
                               "PL", "2024-01-01_2024-01-31", "x", now, later, first, second);
  }

  /**
   * The transient store with the cached query layer on top. `upstreamCalls`
   * counts the matches lookups made and `requests` logs the requests they
   * sent; both exist only for the proofs.
   */
  class TransientCache {
    var store: Store
    ghost var upstreamCalls: nat
    ghost var requests: seq<Request>

    constructor ()
      ensures store == map[] && upstreamCalls == 0 && requests == []
    {
      store := map[];
      upstreamCalls := 0;
      requests := [];
    }

    /** `get_transient`: the stored value while fresh, `false` otherwise. */
    method GetTransient(key: string, now: int) returns (v: Json)
      ensures v == ReadTransient(store, key, now)
    {
      v := Bool(false);
      if key in store {
        var entry := store[key];
        if now <= entry.expiresAt {
          v := entry.value;
        }
      }
    }

    /** `set_transient`: last write wins. */
    method SetTransient(key: string, value: Json, ttl: int, now: int)
      requires ttl > 0
      modifies this`store
      ensures store == WriteTransient(old(store), key, value, ttl, now)
    {
      store := store[key := Transient(value, now + ttl)];
    }

    /** `get_cached_football_matches`, updating the store in place. */
    method GetCachedFootballMatches(apiKey: ApiKey, league: string, start: string, end: string,
                                    now: int, response: Response) returns (matches: Json)
      modifies this
      ensures var o := CachedMatches(old(store), apiKey, league, start, end, now, response);
        && store == o.store && matches == o.matches
        && upstreamCalls == old(upstreamCalls) + (if o.upstream.Some? then 1 else 0)
        && requests == old(requests)
             + (if o.upstream.Some? && o.upstream.value.request.Some? then [o.upstream.value.request.value] else [])
    {
      var key := CacheKey(league, start, end);
      matches := GetTransient(key, now);
      if matches == Bool(false) {
        var fetched := GetFootballMatches(apiKey, league, start, end, response);
        upstreamCalls := upstreamCalls + 1;
        if fetched.request.Some? {
          requests := requests + [fetched.request.value];
        }
        matches := fetched.items;
        SetTransient(key, matches, MATCHES_TTL, now);
      }
    }
  }

  /**
   * On the object: two identical queries within the hour, the first a
   * miss, make one upstream lookup between them and return the same value
   * (unless that value was `false`).
   */
  method RepeatedQuery(cache: TransientCache, apiKey: ApiKey, league: string, start: string, end: string,
                       now: int, later: int, first: Response, second: Response) returns (m1: Json, m2: Json)
    requires ReadTransient(cache.store, CacheKey(league, start, end), now) == Bool(false)
    requires later <= now + MATCHES_TTL
    modifies cache
    ensures m1 != Bool(false) ==> m2 == m1 && cache.upstreamCalls == old(cache.upstreamCalls) + 1
    ensures m1 == Bool(false) ==> cache.upstreamCalls == old(cache.upstreamCalls) + 2
  {
    ghost var before := cache.store;
    m1 := cache.GetCachedFootballMatches(apiKey, league, start, end, now, first);
    RepeatWithinTtl(before, apiKey, apiKey, league, start, end, now, later, first, second);
    m2 := cache.GetCachedFootballMatches(apiKey, league, start, end, later, second);
  }
}
