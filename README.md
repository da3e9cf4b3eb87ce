# Football matches plugin: lookup and cache layer

A Dafny model of the data-access core of the "Football Matches" WordPress
plugin (`football-matches.php`): the two lookups against the
football-data.org v4 API, with their credential guard, the URL they build
and their fail-soft reading of the reply, and the transient cache that
memoises the matches lookup for one hour.

- `wrappers.dfy` — `Option`.
- `football_api.dfy`, module `FootballApi` — the upstream client.
  Decoded JSON is a `Json` datatype, and the plugin passes it through
  untouched. The stored credential is an `ApiKey`, where `None` means the
  setting was never saved. `Unconfigured` is PHP's `empty()` on it: unset,
  `""` or `"0"`. The transport's answer is a `Response`: a transport error,
  or a body that did or did not decode. A lookup returns a `Lookup`: the
  value handed back, the `Request` it sent (none when the guard fired) and
  whether it emitted the "API key not configured" notice.
- `query_string.dfy`, module `QueryString` — a reference reading of a URL.
  It splits off the path at the first `?` and splits the query into
  `name=value` parameters at `&`. The built matches URLs are checked
  against it.
- `match_cache.dfy`, module `MatchCache` — the cache key and the transient
  store. A missing or expired entry reads as `false`; a write overwrites and
  expires `ttl` seconds from now. `CachedMatches` is the memoising wrapper
  as a function on the store. `TransientCache` is a class whose
  `GetCachedFootballMatches` updates the store in place and keeps two ghost
  fields: a count of the upstream lookups it made and a log of the requests
  they sent.

Next to the model, the proofs show these facts:

- The matches URL carries exactly the intended parameters when no input
  holds an `&`. Because nothing is escaped, an `&` in a date adds a
  parameter of the caller's choosing.
- The cache key separates leagues for fixed dates. In general it is not
  injective: an underscore can move from one component to the next, and
  two different queries then share one entry.
- A stored result that is itself `false` reads as a miss, so it is looked
  up again on every call, while a stored empty list is a hit.

Three facts about the code that are easy to miss:
- The cache key is not collision-free. An underscore in the league or a
  date can move from one component to the next, as `CacheKeyCollision`
  shows, and two different queries then share one entry.
- The credential check uses `empty()`, so the string `"0"` counts as a
  missing credential, just like an unset or empty setting.
- A cache hit needs a fresh entry whose value is not `false`. A stored
  `false` reads as a miss.

Time is an integer number of seconds passed to the cache as `now`. An entry
written at `now` with a TTL of `ttl` stays fresh while the reading time is
at most `now + ttl`, which is how WordPress compares a transient's timeout
with the current time. On a miss the code reads the clock twice: once when
it reads the transient (football-matches.php:94) and again when it writes
it (football-matches.php:98), with the HTTP request in between. The model
uses one `now` for both, which stands for the time of the write. In the
model the lookup takes no time. The proved claims still hold, because an
entry that misses at one time still misses at any later time.

## Model

| member | source | states |
|---|---|---|
| FootballApi.GetFootballLeagues | football-matches.php:16-38 | With an empty credential (unset, `""` or `"0"`) it returns `[]`, sends no request and emits the notice. Otherwise it sends one GET to the competitions URL with the credential as `X-Auth-Token`. The result is `[]` on a transport error, and otherwise exactly the body's non-null `competitions` member, or `[]` when there is none. |
| FootballApi.GetFootballMatches | football-matches.php:65-90 | The same guard and fail-soft reading for the matches lookup. The one request goes to `MatchesUrl(league, start, end)` with the credential as token, and the result is the body's `matches` member or `[]`. |
| FootballApi.Member | football-matches.php:87-89 | `data[key] ?? []`: the member when the decoded body is an object holding a non-null value under the key, and `[]` in every other case, including an undecodable body. |
| FootballApi.Extract | football-matches.php:83-89 | A transport error or an undecodable body gives `[]`. Any non-empty result is the requested member of a decoded object body, and that member is always returned when present. |
| FootballApi.MatchesUrlRendersQuery | football-matches.php:71-75 | The built URL is the matches endpoint, then `?`, then `MatchesQuery` written as `name=value` pieces joined by `&`. For "all" that is `dateFrom`, `dateTo`; for any other league, `competitions`, `dateFrom`, `dateTo`. |
| FootballApi.MatchesUrlEndpoint | football-matches.php:71-75 | For every league and date string, the URL's path is `https://api.football-data.org/v4/matches`. |
| FootballApi.MatchesUrlParameters | football-matches.php:71-75 | When no input holds `&`, the server reads exactly the intended parameters, with league and dates verbatim. There is no `competitions` parameter for "all", and `competitions=<league>` comes first otherwise. |
| FootballApi.MatchesUrlFilter | football-matches.php:71-74 | Under the same condition, a `competitions` parameter is present if and only if the league is not "all". |
| FootballApi.StartDateInjectsFilter | football-matches.php:72 | The dates are not escaped. With league "all" and start date `2024-01-01&competitions=PL`, the server reads a `competitions=PL` filter. |
| MatchCache.ParseCacheKeyInverse | football-matches.php:93 | The key is `football_matches_<league>_<start>_<end>`. When league and start date hold no underscore, the key reads back as exactly that query. |
| MatchCache.CacheKeyInjective | football-matches.php:93 | For queries whose league and start date hold no underscore, two keys are equal if and only if the queries are equal. |
| MatchCache.CacheKeyLeagueInjective | football-matches.php:93 | For fixed dates, two leagues get the same key if and only if they are the same league, whatever characters they hold. So "all" and "PL" never share an entry. |
| MatchCache.CacheKeyCollision | football-matches.php:93 | The key is not injective in general: `("PL_2024-01-01", "2024-01-31", "x")` and `("PL", "2024-01-01_2024-01-31", "x")` get the same key. |
| MatchCache.WriteTransient | football-matches.php:98 | For a positive `ttl` (the plugin always passes one hour): after a write, the key reads as the written value until `ttl` seconds after the write and as `false` after that. Every other key reads as before, at every time. |
| MatchCache.CachedMatches | football-matches.php:92-101 | On a hit (a fresh value other than `false`) it returns that value, makes no lookup and leaves the store unchanged. Otherwise it makes exactly one matches lookup, writes its result under the key with a TTL of one hour, and returns the value written. Afterwards the key reads as the returned value, and no other key changes. |
| MatchCache.MissIsFreshForTtl | football-matches.php:96-98 | After a miss, the key reads as the returned value up to one hour after the write, and as `false` once the hour has passed. |
| MatchCache.RepeatWithinTtl | football-matches.php:94-100 | After a miss, a second identical query within the hour makes no lookup if and only if the first result was not `false`. In that case it returns the same value and leaves the store as it was, whatever credential and transport the second call sees. |
| MatchCache.RefetchAfterTtl | football-matches.php:94-98 | After a miss, the same query made once the hour has passed makes a new lookup and returns that lookup's result. |
| MatchCache.FailedLookupIsCached | football-matches.php:96-98 | Take a miss that ends in a missing credential, a transport error or an undecodable body. It returns `[]`. For the next hour the same query returns `[]` with no lookup, even if the credential has been configured meanwhile. |
| MatchCache.CachedExampleServed | football-matches.php:94-100 | The one-match list stored under the key of ("PL", "2024-01-01", "2024-01-31") is returned as it is, with no lookup and no write. |
| MatchCache.LeaguesCachedSeparately | football-matches.php:93-98 | A query for one league never changes what another league's key reads, for the same dates, at any time. |
| MatchCache.CollidingQueriesShareEntry | football-matches.php:93-96 | Take any two queries with the same key, and a miss for the first. The second, made within the hour with any credential, is served the first query's result with no lookup of its own and no write. The exception is a first result of `false`. |
| MatchCache.UnderscoreQueriesShareEntry | football-matches.php:93-96 | An instance: after a miss for `("PL_2024-01-01", "2024-01-31", "x")`, the different query `("PL", "2024-01-01_2024-01-31", "x")` within the hour gets that result with no lookup, unless it was `false`. |
| MatchCache.TransientCache.GetTransient | football-matches.php:94 | Returns the stored value while it is fresh and `false` when the key is absent or expired. The store is not changed. |
| MatchCache.TransientCache.SetTransient | football-matches.php:98 | For a positive `ttl`: overwrites the key with the value, expiring `ttl` seconds from now. Last write wins. |
| MatchCache.TransientCache.GetCachedFootballMatches | football-matches.php:92-101 | The in-place store and the returned value are those of `CachedMatches`. The ghost lookup counter grows by one exactly on a miss. The ghost request log gains the request that lookup sent, which is none when the guard fired. |
| MatchCache.RepeatedQuery | football-matches.php:94-100 | On the object: two identical queries within the hour, the first a miss, make exactly one upstream lookup and return equal values, unless the first value was `false`, in which case they make two. |

## Left out

- HTTP transport (`wp_remote_get`, `is_wp_error`, `wp_remote_retrieve_body`): a foreign call. It appears only as the `Response` a lookup is given and the `Request` it records. Headers other than `X-Auth-Token`, status codes, timeouts and redirects are not modelled.
- `json_decode`: a foreign call. Only its outcome is modelled: a `Json` value, or `None` for a body that is not valid JSON. JSON numbers are kept as their literal text.
- How the server decodes a query: the reference reading in `QueryString` does not percent-decode, does not map `+` to a space, and does not cut the URL at `#`. So `MatchesUrlParameters` speaks about the raw text the server splits.
- WordPress transient internals: storage, eviction, the object cache, deletion of an expired entry when it is read, and `set_transient` failing. Only the contract is modelled: an absent or expired entry reads as `false`, and a write overwrites.
- MatchCache.WriteTransient: requires a positive TTL. WordPress reads an expiration of 0 as "never expires", and that case is not modelled; the plugin only ever passes one hour (football-matches.php:98).
- MatchCache.TransientCache.SetTransient: requires a positive TTL, for the same reason.
- Key case-folding in the transient store: WordPress's default storage is the options table. Under MySQL's usual case-insensitive collation it matches transient names regardless of case, so `PL` and `pl` would share one entry in practice. The model's store compares keys exactly, so `LeaguesCachedSeparately` keeps them apart.
- `get_option`: the credential is passed to each lookup as an `ApiKey`. Non-string option values are not modelled.
- The notice text and its HTML (football-matches.php:19, 68) and i18n: only a flag says that the notice was emitted.
- Form and table rendering, nonce checking and `sanitize_text_field` (football-matches.php:40-63, 103-132): presentation and framework security, whose behaviour is not visible in this file.
- Date formatting with `strtotime`/`date` (football-matches.php:124): display only, and it depends on locale and timezone.
- The settings page, option registration, textdomain loading and style enqueueing (football-matches.php:135-214): framework wiring.
- Concurrent duplicate lookups for the same uncached key: the code has no coordination to model, and the model is sequential.
