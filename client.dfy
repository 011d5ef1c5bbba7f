/** The sports client: the game records, the request URL for today's games,
    the display form of a game status, and FetchNBAScores, which answers from
    the cache while it is fresh and otherwise fetches from the upstream API and
    refills the cache.

    The network and the JSON decoder are not modelled; each fallible step of a
    fetch is an outcome supplied by an Upstream value. */
module Sports {
  import opened Wrappers
  import opened Decimal
  import opened TtlCache

  // ---------------------------------------------------------------------
  // Records, as decoded from the upstream JSON.

  datatype Team = Team(abbreviation: string)

  datatype Game = Game(
    id: int,
    status: string,
    time: string,
    homeTeamScore: int,
    visitorTeamScore: int,
    homeTeam: Team,
    visitorTeam: Team)

  /** The JSON envelope {"data": [...]}. */
  datatype GameResponse = GameResponse(data: seq<Game>)

  // ---------------------------------------------------------------------
  // Constants. Durations are in nanoseconds, as Go's time.Duration.

  const Second: int := 1_000_000_000
  const GamesCacheTtl: int := 30 * Second
  const ClientTimeout: int := 10 * Second
  const StatusOK: int := 200
  const BaseUrl: string := "https://api.balldontlie.io/v1/games"
  const DatesQuery: string := "?dates[]="

  /** The package-level gamesCache: a cache of game lists with a 30-second
      TTL, whose zero value is the empty (nil) list. */
  method NewGamesCache() returns (c: Cache<seq<Game>>)
    ensures fresh(c)
    ensures c.ttl == GamesCacheTtl && c.zero == []
    ensures c.State() == Slot([], None)
  {
    c := new Cache(GamesCacheTtl, []);
  }

  // ---------------------------------------------------------------------
  // Today's date in the query string, Go layout "2006-01-02".

  datatype Date = Date(year: int, month: int, day: int)

  predicate ValidDate(d: Date) {
    0 <= d.year <= 9999 && 1 <= d.month <= 12 && 1 <= d.day <= 31
  }

  /** YYYY-MM-DD, each field zero-padded. */
  function DateString(d: Date): (s: string)
    requires ValidDate(d)
    ensures |s| == 10 && s[4] == '-' && s[7] == '-'
    ensures AllDigits(s[..4]) && AllDigits(s[5..7]) && AllDigits(s[8..])
  {
    Padded(d.year, 4) + "-" + Padded(d.month, 2) + "-" + Padded(d.day, 2)
  }

  /** Reads a YYYY-MM-DD string back into its three fields. */
  function ParseDate(s: string): Option<Date> {
    if |s| == 10 && s[4] == '-' && s[7] == '-'
       && AllDigits(s[..4]) && AllDigits(s[5..7]) && AllDigits(s[8..])
    then Some(Date(Value(s[..4]), Value(s[5..7]), Value(s[8..])))
    else None
  }

  /** The date string determines the date: it reads back as exactly the
      year, month and day it was written from. */
  lemma DateRoundTrip(d: Date)
    requires ValidDate(d)
    ensures ParseDate(DateString(d)) == Some(d)
  {
    var s := DateString(d);
    assert s[..4] == Padded(d.year, 4);
    assert s[5..7] == Padded(d.month, 2);
    assert s[8..] == Padded(d.day, 2);
    assert Pow10(4) == 10000 && Pow10(2) == 100;
    PaddedValue(d.year, 4);
    PaddedValue(d.month, 2);
    PaddedValue(d.day, 2);
  }

  /** The request URL: the fixed endpoint, "?dates[]=" and today's date. */
  function RequestUrl(today: Date): (url: string)
    requires ValidDate(today)
    ensures |url| == |BaseUrl| + |DatesQuery| + 10
    ensures url[..|BaseUrl| + |DatesQuery|] == BaseUrl + DatesQuery
    ensures ParseDate(url[|BaseUrl| + |DatesQuery|..]) == Some(today)
  {
    var url := BaseUrl + DatesQuery + DateString(today);
    DateRoundTrip(today);
    assert url[|BaseUrl| + |DatesQuery|..] == DateString(today);
    url
  }

  // ---------------------------------------------------------------------
  // FormatStatus.

  type Hour = h: int | 0 <= h < 24
  type Minute = m: int | 0 <= m < 60

  /** A local wall-clock time of day. */
  datatype ClockTime = ClockTime(hour: Hour, minute: Minute)

  /** Go layout "3:04 PM": the hour on a 12-hour dial without padding (12,
      not 0, at noon and midnight), two-digit minutes, then AM or PM. */
  function Clock12(t: ClockTime): (s: string)
    ensures |s| == 7 || |s| == 8
    ensures |s| == 7 <==> 1 <= t.hour % 12 <= 9
  {
    var h := if t.hour % 12 == 0 then 12 else t.hour % 12;
    Unpadded(h) + ":" + Padded(t.minute, 2) + " " + (if t.hour < 12 then "AM" else "PM")
  }

  /** Reads an "h:mm AM" or "hh:mm PM" string back into a time of day. */
  function ParseClock12(s: string): Option<ClockTime> {
    if |s| != 7 && |s| != 8 then None
    else
      var k := |s| - 6;
      if AllDigits(s[..k]) && s[k] == ':' && AllDigits(s[k + 1..k + 3]) && s[k + 3] == ' '
         && (s[k + 4..] == "AM" || s[k + 4..] == "PM")
      then
        var h12, m := Value(s[..k]), Value(s[k + 1..k + 3]);
        if 1 <= h12 <= 12 && m < 60
        then Some(ClockTime(h12 % 12 + (if s[k + 4..] == "PM" then 12 else 0), m))
        else None
      else None
  }

  /** The 12-hour rendering loses nothing: it reads back as the same time. */
  lemma Clock12RoundTrip(t: ClockTime)
    ensures ParseClock12(Clock12(t)) == Some(t)
  {
    var h := if t.hour % 12 == 0 then 12 else t.hour % 12;
    var hs, ms := Unpadded(h), Padded(t.minute, 2);
    var suffix := if t.hour < 12 then "AM" else "PM";
    var s := Clock12(t);
    var k := |hs|;
    assert s == hs + ":" + ms + " " + suffix;
    assert |s| - 6 == k;
    assert s[..k] == hs;
    assert s[k + 1..k + 3] == ms;
    assert s[k + 4..] == suffix;
    UnpaddedValue(h);
    assert Pow10(2) == 100;
    PaddedValue(t.minute, 2);
  }

  /** FormatStatus. `parseLocal` stands for time.Parse with the RFC 3339
      layout followed by conversion to local time: None when the status is
      not an RFC 3339 date-time. A status that is not a timestamp ("Final")
      comes back unchanged; a timestamp comes back as its local time of day
      on a 12-hour clock. */
  function FormatStatus(status: string, parseLocal: string -> Option<ClockTime>): (r: string)
    ensures parseLocal(status).None? ==> r == status
    ensures parseLocal(status).Some? ==> ParseClock12(r) == parseLocal(status)
  {
    match parseLocal(status)
    case None => status
    case Some(t) => Clock12RoundTrip(t); Clock12(t)
  }

  // ---------------------------------------------------------------------
  // The fetch.

  /** The request FetchNBAScores sends: GET, the URL, the API key as the
      Authorization header, and the client's timeout. */
  datatype Request = Request(verb: string, url: string, authorization: string, timeout: int)

  /** What the transport delivers: the status code, the status line and the
      outcome of reading the body. */
  datatype HttpResponse = HttpResponse(statusCode: int, status: string, body: Result<seq<bv8>, string>)

  /** The outcome of every step a fetch cannot decide by itself:
      `newRequest` is the error http.NewRequest reports for a URL (None when
      the request can be built), `send` is the transport, and `decode` is
      json.Unmarshal of a body into the envelope. */
  datatype Upstream = Upstream(
    newRequest: string -> Option<string>,
    send: Request -> Result<HttpResponse, string>,
    decode: seq<bv8> -> Result<GameResponse, string>)

  /** The request of a miss: a GET of today's URL, with the API key as the
      Authorization header and the client's 10-second timeout. */
  function GetRequest(today: Date, apiKey: string): (req: Request)
    requires ValidDate(today)
    ensures req.verb == "GET" && req.authorization == apiKey && req.timeout == 10 * Second
    ensures |req.url| == |BaseUrl| + |DatesQuery| + 10
    ensures req.url[..|BaseUrl| + |DatesQuery|] == BaseUrl + DatesQuery
    ensures ParseDate(req.url[|BaseUrl| + |DatesQuery|..]) == Some(today)
  {
    Request("GET", RequestUrl(today), apiKey, ClientTimeout)
  }

  /** The miss path of a fetch: every step in order, the first failure being
      the result. A status other than 200 is a failure whatever the body. */
  function Retrieve(up: Upstream, apiKey: string, today: Date): (r: Result<seq<Game>, string>)
    requires ValidDate(today)
    ensures r.Success? ==> AllStepsSucceed(up, apiKey, today, r.value)
    ensures up.newRequest(RequestUrl(today)).Some? ==> r == Failure(up.newRequest(RequestUrl(today)).value)
    ensures up.newRequest(RequestUrl(today)).None? && up.send(GetRequest(today, apiKey)).Failure?
            ==> r == Failure(up.send(GetRequest(today, apiKey)).error)
    ensures up.newRequest(RequestUrl(today)).None? && up.send(GetRequest(today, apiKey)).Success?
            && up.send(GetRequest(today, apiKey)).value.statusCode == StatusOK
            && up.send(GetRequest(today, apiKey)).value.body.Failure?
            ==> r == Failure(up.send(GetRequest(today, apiKey)).value.body.error)
    ensures up.newRequest(RequestUrl(today)).None? && up.send(GetRequest(today, apiKey)).Success?
            && up.send(GetRequest(today, apiKey)).value.statusCode == StatusOK
            && up.send(GetRequest(today, apiKey)).value.body.Success?
            && up.decode(up.send(GetRequest(today, apiKey)).value.body.value).Failure?
            ==> r == Failure(up.decode(up.send(GetRequest(today, apiKey)).value.body.value).error)
  {
    var url := RequestUrl(today);
    match up.newRequest(url)
    case Some(e) => Failure(e)
    case None =>
      match up.send(GetRequest(today, apiKey))
      case Failure(e) => Failure(e)
      case Success(resp) =>
        if resp.statusCode != StatusOK then Failure("API error: " + resp.status)
        else
          match resp.body
          case Failure(e) => Failure(e)
          case Success(body) =>
            match up.decode(body)
            case Failure(e) => Failure(e)
            case Success(envelope) => Success(envelope.data)
  }

  /** What one call of FetchNBAScores returns, and the cache it leaves. */
  datatype FetchResult = FetchResult(games: seq<Game>, err: Option<string>, cache: Slot<seq<Game>>)

  /** A fetch on cache slot `s`: the cache is read at `readAt` and, after a
      successful retrieval, written at `writeAt`. */
  function Fetch(s: Slot<seq<Game>>, ttl: int, readAt: int, writeAt: int,
                 up: Upstream, apiKey: string, today: Date): (r: FetchResult)
    requires ValidDate(today)
    ensures r.err.Some? ==> r.games == [] && r.cache == s
    ensures r.cache == s || (!Fresh(s, ttl, readAt) && r.err.None? && r.cache == Slot(r.games, Some(writeAt)))
  {
    if Fresh(s, ttl, readAt) then FetchResult(s.data, None, s)
    else
      match Retrieve(up, apiKey, today)
      case Failure(e) => FetchResult([], Some(e), s)
      case Success(games) => FetchResult(games, None, Slot(games, Some(writeAt)))
  }

  /** FetchNBAScores on an explicit cache. `readAt` is the clock when the
      cache is consulted, `today` the local date at the time of the request
      and `writeAt` the clock when the fetched list is stored. */
  method FetchNBAScores(cache: Cache<seq<Game>>, up: Upstream, apiKey: string,
                        readAt: int, today: Date, writeAt: int)
    returns (games: seq<Game>, err: Option<string>)
    requires ValidDate(today)
    modifies cache
    ensures Fetch(old(cache.State()), cache.ttl, readAt, writeAt, up, apiKey, today)
            == FetchResult(games, err, cache.State())
  {
    var cached, ok := cache.Get(readAt);
    if ok {
      return cached, None;
    }

    var url := RequestUrl(today);
    var requestError := up.newRequest(url);
    if requestError.Some? {
      return [], requestError;
    }
    var req := Request("GET", url, apiKey, ClientTimeout);

    var sent := up.send(req);
    if sent.Failure? {
      return [], Some(sent.error);
    }
    var resp := sent.value;

    if resp.statusCode != StatusOK {
      return [], Some("API error: " + resp.status);
    }

    if resp.body.Failure? {
      return [], Some(resp.body.error);
    }

    var decoded := up.decode(resp.body.value);
    if decoded.Failure? {
      return [], Some(decoded.error);
    }

    cache.Set(decoded.value.data, writeAt);
    return decoded.value.data, None;
  }

  // ---------------------------------------------------------------------
  // Properties of a fetch.

  /** A fresh cache answers alone: the cached list, no error, the cache
      untouched. The result does not depend on the upstream, the key, the
      date or the write time, so a hit never reaches the network. */
  lemma FetchHitServesCache(s: Slot<seq<Game>>, ttl: int, readAt: int, writeAt: int,
                            up: Upstream, apiKey: string, today: Date)
    requires ValidDate(today)
    requires Fresh(s, ttl, readAt)
    ensures Fetch(s, ttl, readAt, writeAt, up, apiKey, today) == FetchResult(s.data, None, s)
  {
  }

  /** A fetch that fails was a miss whose retrieval failed, returns no games
      and leaves the cache exactly as it was. */
  lemma FetchFailureKeepsCache(s: Slot<seq<Game>>, ttl: int, readAt: int, writeAt: int,
                               up: Upstream, apiKey: string, today: Date)
    requires ValidDate(today)
    requires Fetch(s, ttl, readAt, writeAt, up, apiKey, today).err.Some?
    ensures !Fresh(s, ttl, readAt)
    ensures Retrieve(up, apiKey, today) == Failure(Fetch(s, ttl, readAt, writeAt, up, apiKey, today).err.value)
    ensures Fetch(s, ttl, readAt, writeAt, up, apiKey, today).games == []
    ensures Fetch(s, ttl, readAt, writeAt, up, apiKey, today).cache == s
  {
  }

  /** A miss that succeeds stores exactly the retrieved list, stamped with the
      write time, and returns that same list. */
  lemma FetchMissSuccessCachesData(s: Slot<seq<Game>>, ttl: int, readAt: int, writeAt: int,
                                   up: Upstream, apiKey: string, today: Date)
    requires ValidDate(today)
    requires !Fresh(s, ttl, readAt)
    requires Fetch(s, ttl, readAt, writeAt, up, apiKey, today).err.None?
    ensures Retrieve(up, apiKey, today) == Success(Fetch(s, ttl, readAt, writeAt, up, apiKey, today).games)
    ensures Fetch(s, ttl, readAt, writeAt, up, apiKey, today).cache
            == Slot(Fetch(s, ttl, readAt, writeAt, up, apiKey, today).games, Some(writeAt))
  {
  }

  /** Every step succeeds, in order, and the list is the decoded envelope's
      data: the only way a retrieval succeeds, and one that always does. */
  predicate AllStepsSucceed(up: Upstream, apiKey: string, today: Date, games: seq<Game>)
    requires ValidDate(today)
  {
    var req := GetRequest(today, apiKey);
    up.newRequest(req.url).None?
    && up.send(req).Success?
    && up.send(req).value.statusCode == StatusOK
    && up.send(req).value.body.Success?
    && up.decode(up.send(req).value.body.value) == Success(GameResponse(games))
  }

  lemma RetrieveSucceedsIffAllStepsSucceed(up: Upstream, apiKey: string, today: Date, games: seq<Game>)
    requires ValidDate(today)
    ensures Retrieve(up, apiKey, today) == Success(games) <==> AllStepsSucceed(up, apiKey, today, games)
  {
  }

  /** A status other than 200 is an error carrying the status line, even
      when the body would have decoded. */
  lemma NonOkStatusFails(up: Upstream, apiKey: string, today: Date)
    requires ValidDate(today)
    requires up.newRequest(RequestUrl(today)).None?
    requires up.send(GetRequest(today, apiKey)).Success?
    requires up.send(GetRequest(today, apiKey)).value.statusCode != StatusOK
    ensures Retrieve(up, apiKey, today) == Failure("API error: " + up.send(GetRequest(today, apiKey)).value.status)
  {
  }

  /** Two fetches in a row: when the first misses and succeeds, a second one
      read less than a TTL after the first one's write returns the identical
      list with no error, leaves the cache alone, and does so whatever the
      upstream would have answered. */
  lemma RepeatFetchWithinTtl(s: Slot<seq<Game>>, ttl: int, read1: int, write1: int, read2: int, write2: int,
                             up1: Upstream, up2: Upstream, apiKey: string, today1: Date, today2: Date)
    requires ValidDate(today1) && ValidDate(today2)
    requires !Fresh(s, ttl, read1)
    requires Fetch(s, ttl, read1, write1, up1, apiKey, today1).err.None?
    requires read2 - write1 < ttl
    ensures var first := Fetch(s, ttl, read1, write1, up1, apiKey, today1);
            Fetch(first.cache, ttl, read2, write2, up2, apiKey, today2) == FetchResult(first.games, None, first.cache)
  {
  }

  /** The one game of the one-game envelope
      {"data":[{"id":1,"status":"Final","home_team_score":100,"visitor_team_score":98,
                "home_team":{"abbreviation":"LAL"},"visitor_team":{"abbreviation":"BOS"}}]}
      (no "time" field, so it decodes to the empty string). */
  const FinalLalBos: Game := Game(1, "Final", "", 100, 98, Team("LAL"), Team("BOS"))

  /** End to end on the games cache: on a never-written cache with the 30 s
      TTL, an upstream whose every step succeeds with the one-game envelope
      above yields exactly that record and caches it; a second fetch read within 30 s
      of the write returns the identical record, leaves the cache alone and
      does not depend on what the upstream would answer. */
  lemma OneGameFetchedThenServedFromCache(up1: Upstream, up2: Upstream, apiKey: string, today: Date,
                                          read1: int, write1: int, read2: int, write2: int)
    requires ValidDate(today)
    requires AllStepsSucceed(up1, apiKey, today, [FinalLalBos])
    requires read2 - write1 < GamesCacheTtl
    ensures var first := Fetch(Slot([], None), GamesCacheTtl, read1, write1, up1, apiKey, today);
            first == FetchResult([FinalLalBos], None, Slot([FinalLalBos], Some(write1)))
            && Fetch(first.cache, GamesCacheTtl, read2, write2, up2, apiKey, today) == first
  {
    RetrieveSucceedsIffAllStepsSucceed(up1, apiKey, today, [FinalLalBos]);
  }
}
