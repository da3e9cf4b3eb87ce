/**
 * The upstream client of the football-matches plugin: the two lookups
 * against the football-data.org v4 API (the list of competitions and the
 * matches in a date range), their credential guard, the request URLs they
 * build and their fail-soft reading of the reply.
 *
 * The HTTP transport and the JSON decoder are outside the model: a lookup
 * is given the `Response` the transport would deliver for its request, and
 * says in its result which request, if any, it sent.
 */
module FootballApi {
  import opened Wrappers
  import opened QueryString

  /** A decoded JSON value, as the decoder hands it over (objects become maps). */
  datatype Json =
    | Null
    | Bool(b: bool)
    | Num(literal: string)
    | Str(text: string)
    | Arr(elements: seq<Json>)
    | Obj(members: map<string, Json>)

  /** The empty list every failure path returns. */
  const EMPTY_LIST: Json := Arr([])

  /** The stored API credential: `None` when the setting was never saved. */
  type ApiKey = Option<string>

  /** The host language's emptiness test on the credential: unset, `""` and `"0"` all count as empty. */
  predicate Unconfigured(apiKey: ApiKey)
  {
    apiKey.None? || apiKey.value == "" || apiKey.value == "0"
  }

  /** A GET request: its URL and the value of its `X-Auth-Token` header. */
  datatype Request = Request(url: string, authToken: string)

  /** What the transport delivers: a transport error, or a body that decoded to JSON (`Some`) or did not (`None`). */
  datatype Response = TransportError | Received(decoded: Option<Json>)

  /**
   * The outcome of a lookup: the value returned to the caller, the request
   * sent (none when the guard fired) and whether the "API key not
   * configured" notice was emitted.
   */
  datatype Lookup = Lookup(items: Json, request: Option<Request>, notice: bool)

  const API_ROOT := "https://api.football-data.org/v4"
  const COMPETITIONS_URL := API_ROOT + "/competitions"
  const MATCHES_ENDPOINT := API_ROOT + "/matches"

  /** The league value that means "no competition filter". */
  const ALL_LEAGUES := "all"

  /** The matches URL; league and dates are spliced in verbatim, without escaping. */
  function MatchesUrl(league: string, start: string, end: string): string
  {
    if league == ALL_LEAGUES then
      MATCHES_ENDPOINT + "?dateFrom=" + start + "&dateTo=" + end
    else
      MATCHES_ENDPOINT + "?competitions=" + league + "&dateFrom=" + start + "&dateTo=" + end
  }

  /** The query parameters a matches request is meant to carry, in order. */
  function MatchesQuery(league: string, start: string, end: string): (ps: seq<(string, string)>)
    ensures |ps| == if league == ALL_LEAGUES then 2 else 3
  {
    (if league == ALL_LEAGUES then [] else [("competitions", league)])
      + [("dateFrom", start), ("dateTo", end)]
  }

  /** Whether `decoded` is an object holding `key` with a non-null value `v`. */
  predicate HoldsMember(decoded: Option<Json>, key: string, v: Json)
  {
    decoded.Some? && decoded.value.Obj? && key in decoded.value.members
      && decoded.value.members[key] == v && v != Null
  }

  /**
   * `data[key] ?? []` on the decoded body: the member when the body is an
   * object holding it with a non-null value, and the empty list otherwise
   * (an undecodable body, a scalar, a list, a missing or null member).
   */
  function Member(decoded: Option<Json>, key: string): (v: Json)
    ensures forall u :: HoldsMember(decoded, key, u) ==> v == u
    ensures v == EMPTY_LIST || HoldsMember(decoded, key, v)
    ensures decoded.None? ==> v == EMPTY_LIST
  {
    if decoded.Some? && decoded.value.Obj? && key in decoded.value.members
       && decoded.value.members[key] != Null
    then decoded.value.members[key]
    else EMPTY_LIST
  }

  /** The fail-soft reading of a reply: a transport error gives the empty list, a body gives its `key` member. */
  function Extract(response: Response, key: string): (v: Json)
    ensures response.TransportError? ==> v == EMPTY_LIST
    ensures response.Received? && response.decoded.None? ==> v == EMPTY_LIST
    ensures v == EMPTY_LIST || (response.Received? && HoldsMember(response.decoded, key, v))
    ensures forall u :: response.Received? && HoldsMember(response.decoded, key, u) ==> v == u
  {
    match response
    case TransportError => EMPTY_LIST
    case Received(decoded) => Member(decoded, key)
  }

  /** The lookup pattern both entry points share: guard, authenticated GET, fail-soft extraction. */
  function Fetch(apiKey: ApiKey, url: string, key: string, response: Response): Lookup
  {
    if Unconfigured(apiKey) then Lookup(EMPTY_LIST, None, true)
    else Lookup(Extract(response, key), Some(Request(url, apiKey.value)), false)
  }

  /** The list of competitions (`get_football_leagues`). */
  function GetFootballLeagues(apiKey: ApiKey, response: Response): (r: Lookup)
    ensures Unconfigured(apiKey) ==> r == Lookup(EMPTY_LIST, None, true)
    ensures !Unconfigured(apiKey) ==>
      r.request == Some(Request(COMPETITIONS_URL, apiKey.value)) && !r.notice
    ensures response.TransportError? ==> r.items == EMPTY_LIST
    ensures r.items == EMPTY_LIST || HoldsMember(response.decoded, "competitions", r.items)
    ensures forall u ::
      (!Unconfigured(apiKey) && response.Received? && HoldsMember(response.decoded, "competitions", u))
      ==> r.items == u
  {
    Fetch(apiKey, COMPETITIONS_URL, "competitions", response)
  }

  /** The matches of a league (or of all leagues) in a date range (`get_football_matches`). */
  function GetFootballMatches(apiKey: ApiKey, league: string, start: string, end: string, response: Response): (r: Lookup)
    ensures Unconfigured(apiKey) ==> r == Lookup(EMPTY_LIST, None, true)
    ensures !Unconfigured(apiKey) ==>
      r.request == Some(Request(MatchesUrl(league, start, end), apiKey.value)) && !r.notice
    ensures response.TransportError? ==> r.items == EMPTY_LIST
    ensures r.items == EMPTY_LIST || HoldsMember(response.decoded, "matches", r.items)
    ensures forall u ::
      (!Unconfigured(apiKey) && response.Received? && HoldsMember(response.decoded, "matches", u))
      ==> r.items == u
  {
    Fetch(apiKey, MatchesUrl(league, start, end), "matches", response)
  }

  /** The matches URL is the rendering of `MatchesQuery` after the endpoint. */
  lemma MatchesUrlRendersQuery(league: string, start: string, end: string)
    ensures MatchesUrl(league, start, end)
      == MATCHES_ENDPOINT + "?" + Join(Rendered(MatchesQuery(league, start, end)), '&')
  {
    var ps := MatchesQuery(league, start, end);
    var from, to := "dateFrom" + "=" + start, "dateTo" + "=" + end;
    JoinPair(from, to, '&');
    if league == ALL_LEAGUES {
      assert Rendered(ps) == [from, to];
      calc {
        MatchesUrl(league, start, end);
        MATCHES_ENDPOINT + "?dateFrom=" + start + "&dateTo=" + end;
        { SplitLiterals(); }
        MATCHES_ENDPOINT + ("?" + "dateFrom" + "=") + start + ("&" + "dateTo" + "=") + end;
        { Regroup(MATCHES_ENDPOINT, "?", "dateFrom" + "=", start, "&", "dateTo" + "=", end); }
        MATCHES_ENDPOINT + "?" + (from + "&" + to);
      }
    } else {
      var filter := "competitions" + "=" + league;
      assert Rendered(ps) == [filter, from, to];
      JoinTriple(filter, from, to, '&');
      calc {
        MatchesUrl(league, start, end);
        MATCHES_ENDPOINT + "?competitions=" + league + "&dateFrom=" + start + "&dateTo=" + end;
        { SplitLiterals(); }
        MATCHES_ENDPOINT + ("?" + "competitions" + "=") + league + ("&" + "dateFrom" + "=") + start
          + ("&" + "dateTo" + "=") + end;
        { Regroup(MATCHES_ENDPOINT + ("?" + "competitions" + "=") + league, "&", "dateFrom" + "=", start,
            "&", "dateTo" + "=", end); }
        MATCHES_ENDPOINT + ("?" + "competitions" + "=") + league + "&" + (from + "&" + to);
        { Regroup(MATCHES_ENDPOINT, "?", "competitions" + "=", league, "&", from + "&", to); }
        MATCHES_ENDPOINT + "?" + (filter + "&" + (from + "&" + to));
      }
    }
  }

  lemma SplitLiterals()
    ensures "?dateFrom=" == "?" + "dateFrom" + "="
    ensures "?competitions=" == "?" + "competitions" + "="
    ensures "&dateFrom=" == "&" + "dateFrom" + "="
    ensures "&dateTo=" == "&" + "dateTo" + "="
  {
  }

  lemma Regroup(e: string, p: string, n: string, v: string, q: string, m: string, w: string)
    ensures e + (p + n) + v + (q + m) + w == e + p + ((n + v) + q + (m + w))
  {
  }

  lemma JoinPair(a: string, b: string, sep: char)
    ensures Join([a, b], sep) == a + [sep] + b
  {
    assert [a, b][1..] == [b];
  }

  lemma JoinTriple(a: string, b: string, c: string, sep: char)
    ensures Join([a, b, c], sep) == a + [sep] + (b + [sep] + c)
  {
    assert [a, b, c][1..] == [b, c];
    JoinPair(b, c, sep);
  }

  /** Whatever the inputs, a matches request goes to the matches endpoint. */
  lemma MatchesUrlEndpoint(league: string, start: string, end: string)
    ensures PathOf(MatchesUrl(league, start, end)) == MATCHES_ENDPOINT
  {
    MatchesUrlRendersQuery(league, start, end);
    assert '?' !in MATCHES_ENDPOINT;
    SplitFirstAt(MATCHES_ENDPOINT, '?', Join(Rendered(MatchesQuery(league, start, end)), '&'));
  }

  /**
   * When no input holds an `&`, the server reads exactly the intended
   * parameters: no competitions filter for "all", `competitions=<league>`
   * first otherwise, then `dateFrom` and `dateTo` with the dates verbatim.
   */
  lemma MatchesUrlParameters(league: string, start: string, end: string)
    requires '&' !in league && '&' !in start && '&' !in end
    ensures QueryParams(MatchesUrl(league, start, end)) == MatchesQuery(league, start, end)
  {
    MatchesUrlRendersQuery(league, start, end);
    assert '?' !in MATCHES_ENDPOINT;
    var ps := MatchesQuery(league, start, end);
    assert forall i :: 0 <= i < |ps| ==> ps[i].0 in {"competitions", "dateFrom", "dateTo"};
    ReadBack(MATCHES_ENDPOINT, ps);
  }

  /** Under the same condition, the competitions filter is present exactly when the league is not "all". */
  lemma MatchesUrlFilter(league: string, start: string, end: string)
    requires '&' !in league && '&' !in start && '&' !in end
    ensures HasParam(QueryParams(MatchesUrl(league, start, end)), "competitions") <==> league != ALL_LEAGUES
  {
    MatchesUrlParameters(league, start, end);
    var ps := MatchesQuery(league, start, end);
    if league != ALL_LEAGUES {
      assert ps[0].0 == "competitions";
    } else {
      assert forall i :: 0 <= i < |ps| ==> ps[i].0 != "competitions";
    }
  }

  /**
   * Because the dates are not escaped, an `&` in a date smuggles in a
   * parameter of the caller's choosing: "all" with this start date asks
   * the server for one competition.
   */
  lemma StartDateInjectsFilter()
    ensures QueryParams(MatchesUrl(ALL_LEAGUES, "2024-01-01&competitions=PL", "2024-01-31"))
      == [("dateFrom", "2024-01-01"), ("competitions", "PL"), ("dateTo", "2024-01-31")]
  {
    var start, end := "2024-01-01&competitions=PL", "2024-01-31";
    var ps := [("dateFrom", "2024-01-01"), ("competitions", "PL"), ("dateTo", "2024-01-31")];
    var a, b, c := "dateFrom" + "=" + "2024-01-01", "competitions" + "=" + "PL", "dateTo" + "=" + end;
    MatchesUrlRendersQuery(ALL_LEAGUES, start, end);
    assert Rendered(MatchesQuery(ALL_LEAGUES, start, end)) == ["dateFrom" + "=" + start, c];
    JoinPair("dateFrom" + "=" + start, c, '&');
    InjectedPieces();
    assert Rendered(ps) == [a, b, c];
    JoinTriple(a, b, c, '&');
    calc {
      Join(Rendered(ps), '&');
      a + "&" + (b + "&" + c);
      (a + "&" + b) + "&" + c;
      ("dateFrom" + "=" + start) + "&" + c;
      Join(Rendered(MatchesQuery(ALL_LEAGUES, start, end)), '&');
    }
    ReadBack(MATCHES_ENDPOINT, ps);
  }

  lemma InjectedPieces()
    ensures "dateFrom" + "=" + "2024-01-01&competitions=PL"
      == ("dateFrom" + "=" + "2024-01-01") + "&" + ("competitions" + "=" + "PL")
    ensures '?' !in MATCHES_ENDPOINT
    ensures var ps := [("dateFrom", "2024-01-01"), ("competitions", "PL"), ("dateTo", "2024-01-31")];
      forall i :: 0 <= i < |ps| ==> ps[i].0 != "" && '=' !in ps[i].0 && '&' !in ps[i].0 && '&' !in ps[i].1
  {
  }
}
