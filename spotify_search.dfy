/** The Spotify search edge function: a client-credentials access token kept
    in a module-level cache, and the request handler that validates the
    search body, fetches a token, calls the Spotify search endpoint and
    reshapes its tracks.  Clock readings, environment variables and the two
    HTTP replies are parameters. */
module SpotifySearch {
  import opened Wrappers
  import opened Text
  import opened Catalog

  /** The cached token and the clock time (ms) from which it is stale. */
  datatype CachedToken = CachedToken(token: string, expiresAt: int)

  /** The token endpoint's answer: a grant, or a failed HTTP status. */
  datatype TokenReply =
    | TokenGranted(accessToken: string, expiresIn: int)
    | TokenRefused(statusText: string)

  /** Tokens are cached until five minutes before they expire. */
  const EarlyExpirySeconds: int := 300

  /** The cached token, if there is one and clock time `nowMs` is before
      its expiry. */
  function Lookup(cache: Option<CachedToken>, nowMs: int): (r: Option<string>)
    ensures r.Some? <==> cache.Some? && nowMs < cache.value.expiresAt
    ensures r.Some? ==> r.value == cache.value.token
  {
    if cache.Some? && nowMs < cache.value.expiresAt then Some(cache.value.token) else None
  }

  /** The cache entry for a grant received at clock time `receivedMs`. */
  function Refreshed(accessToken: string, expiresIn: int, receivedMs: int): (c: CachedToken)
    ensures c.token == accessToken
    ensures c.expiresAt + EarlyExpirySeconds * 1000 == receivedMs + expiresIn * 1000
  {
    CachedToken(accessToken, receivedMs + (expiresIn - EarlyExpirySeconds) * 1000)
  }

  /** A JavaScript string read for truthiness: set and not empty. */
  predicate Truthy(s: Option<string>) {
    s.Some? && s.value != ""
  }

  /** What one `getSpotifyToken()` call returns, whether it called the
      token endpoint, and what it leaves in the cache. */
  datatype TokenOutcome = TokenOutcome(result: Result<string>, fetched: bool, cache: Option<CachedToken>)

  /** `getSpotifyToken()`: `nowMs` is the clock at the cache check,
      `receivedMs` the clock when the grant arrives. */
  function TokenStep(cache: Option<CachedToken>, nowMs: int, receivedMs: int,
                     clientId: Option<string>, clientSecret: Option<string>,
                     reply: TokenReply): (o: TokenOutcome)
    ensures Lookup(cache, nowMs).Some? ==> o == TokenOutcome(Ok(Lookup(cache, nowMs).value), false, cache)
    ensures o.fetched <==> Lookup(cache, nowMs).None? && Truthy(clientId) && Truthy(clientSecret)
    ensures Lookup(cache, nowMs).None? && !o.fetched ==> o.result == Err("Spotify credentials not configured")
    ensures o.fetched && reply.TokenRefused? ==>
      o.result == Err("Failed to get Spotify token: " + reply.statusText) && o.cache == cache
    ensures o.fetched && reply.TokenGranted? ==> o.result == Ok(reply.accessToken)
    ensures o.fetched && reply.TokenGranted? ==>
      o.cache == Some(Refreshed(reply.accessToken, reply.expiresIn, receivedMs))
    ensures o.result.Err? ==> o.cache == cache
    ensures o.cache != cache ==>
      Lookup(cache, nowMs).None? && reply.TokenGranted? &&
      o.cache == Some(Refreshed(reply.accessToken, reply.expiresIn, receivedMs))
  {
    match Lookup(cache, nowMs)
    case Some(token) => TokenOutcome(Ok(token), false, cache)
    case None =>
      if !Truthy(clientId) || !Truthy(clientSecret) then
        TokenOutcome(Err("Spotify credentials not configured"), false, cache)
      else
        match reply
        case TokenRefused(statusText) =>
          TokenOutcome(Err("Failed to get Spotify token: " + statusText), true, cache)
        case TokenGranted(accessToken, expiresIn) =>
          TokenOutcome(Ok(accessToken), true, Some(Refreshed(accessToken, expiresIn, receivedMs)))
  }

  /** A token fetched on a cache miss is served from the cache, without
      credentials or a new grant, exactly until its early expiry: up to five
      minutes before the lifetime the grant announced. */
  lemma RefreshedTokenServedUntilEarlyExpiry(
    cache: Option<CachedToken>, nowMs: int, receivedMs: int,
    clientId: Option<string>, clientSecret: Option<string>,
    accessToken: string, expiresIn: int,
    laterMs: int, laterReceivedMs: int,
    laterId: Option<string>, laterSecret: Option<string>, laterReply: TokenReply)
    requires Lookup(cache, nowMs).None? && Truthy(clientId) && Truthy(clientSecret)
    ensures var first := TokenStep(cache, nowMs, receivedMs, clientId, clientSecret,
                                   TokenGranted(accessToken, expiresIn));
      first.result == Ok(accessToken) &&
      (laterMs < receivedMs + (expiresIn - EarlyExpirySeconds) * 1000 ==>
        TokenStep(first.cache, laterMs, laterReceivedMs, laterId, laterSecret, laterReply)
          == TokenOutcome(Ok(accessToken), false, first.cache)) &&
      (laterMs >= receivedMs + (expiresIn - EarlyExpirySeconds) * 1000 ==>
        Lookup(first.cache, laterMs).None?)
  {
  }

  /** A grant that lives five minutes or less is never served from the
      cache at or after the time it arrived: every later call fetches a new
      token. */
  lemma ShortGrantNeverCached(accessToken: string, expiresIn: int, receivedMs: int, laterMs: int)
    requires expiresIn <= EarlyExpirySeconds && laterMs >= receivedMs
    ensures Lookup(Some(Refreshed(accessToken, expiresIn, receivedMs)), laterMs).None?
  {
  }

  /** The fields of one Spotify track object that the handler reads. */
  datatype SpotifyTrack = SpotifyTrack(
    id: string,
    name: string,
    artistNames: seq<string>,
    albumName: string,
    imageUrls: seq<string>,
    previewUrl: Option<string>,
    durationMs: int,
    uri: string,
    externalUrl: string)

  /** A track in the handler's reply; `preview` stays null when Spotify has
      no preview. */
  datatype SearchTrack = SearchTrack(
    id: string,
    title: string,
    artist: string,
    album: string,
    cover: string,
    preview: Option<string>,
    duration: int,
    spotifyUri: string,
    externalUrl: string)

  /** One Spotify track reshaped into the app's format. */
  function Shape(t: SpotifyTrack): (s: SearchTrack)
    ensures s.id == t.id && s.title == t.name && s.album == t.albumName && s.preview == t.previewUrl
    ensures s.artist == Join(t.artistNames, ", ")
    ensures s.cover == (if |t.imageUrls| > 0 then t.imageUrls[0] else "")
    ensures s.duration * 1000 <= t.durationMs < (s.duration + 1) * 1000
  {
    SearchTrack(
      t.id, t.name, Join(t.artistNames, ", "), t.albumName,
      if |t.imageUrls| > 0 && t.imageUrls[0] != "" then t.imageUrls[0] else "",
      t.previewUrl, MillisToSeconds(t.durationMs), t.uri, t.externalUrl)
  }

  /** A track credited to several artists lists them all, in order, each
      after ", " but the first. */
  lemma ArtistsListed(t: SpotifyTrack, more: string)
    requires |t.artistNames| > 0
    ensures Shape(t.(artistNames := t.artistNames + [more])).artist == Shape(t).artist + ", " + more
  {
    JoinSnoc(t.artistNames, more, ", ");
  }

  /** The `tracks` object of the search reply; a missing field is `None`. */
  datatype TracksPage = TracksPage(items: Option<seq<SpotifyTrack>>, total: Option<int>)

  /** The search endpoint's answer: a body (whose `tracks` may be missing),
      or a failed HTTP status. */
  datatype SearchReply =
    | SearchOk(tracks: Option<TracksPage>)
    | SearchFailed(statusText: string)

  /** The search body fields; `None` is an absent (undefined) field. */
  datatype SearchBody = SearchBody(query: Option<string>, kind: Option<string>, limit: Option<int>)

  /** An incoming request: its HTTP method and its body, `Err` when the
      body is not JSON. */
  datatype Request = Request(httpMethod: string, body: Result<SearchBody>)

  /** The query string sent to the search endpoint. */
  datatype SearchQuery = SearchQuery(q: string, kind: string, limit: string)

  datatype ResponseBody =
    | NoBody
    | ErrorBody(error: string)
    | TracksBody(tracks: seq<SearchTrack>, total: int)

  /** Every response carries the CORS headers; they are not modelled. */
  datatype Response = Response(status: int, body: ResponseBody)

  /** `type = "track"` and `limit = 20`: defaults for absent fields. */
  function QueryFor(body: SearchBody): (sq: SearchQuery)
    requires Truthy(body.query)
    ensures sq.q == body.query.value
    ensures sq.kind == body.kind.GetOr("track")
  {
    SearchQuery(body.query.value, body.kind.GetOr("track"), IntToDecimal(body.limit.GetOr(20)))
  }

  /** The `limit` parameter text reads back as the requested limit, and
      as 20 when the body gives none. */
  lemma LimitReadsBack(body: SearchBody)
    requires Truthy(body.query)
    ensures body.limit.None? ==> QueryFor(body).limit == "20"
    ensures body.limit.Some? && body.limit.value >= 0 ==> DigitsValue(QueryFor(body).limit) == body.limit.value
  {
    var limit := body.limit.GetOr(20);
    if limit >= 0 {
      DecimalRoundTrip(limit);
    }
    if body.limit.None? {
      assert NatToDecimal(20) == NatToDecimal(2) + [DigitChar(0)];
    }
  }

  /** The success body for a search reply: the reshaped items in order
      (none when `tracks` or `items` is missing) and the total (0 when
      missing). */
  function Found(page: Option<TracksPage>): (b: ResponseBody)
    ensures b.TracksBody?
    ensures page.None? || page.value.items.None? ==> b.tracks == []
    ensures page.Some? && page.value.items.Some? ==>
      |b.tracks| == |page.value.items.value| &&
      forall i :: 0 <= i < |b.tracks| ==> b.tracks[i] == Shape(page.value.items.value[i])
    ensures b.total == if page.Some? && page.value.total.Some? then page.value.total.value else 0
  {
    match page
    case None => TracksBody([], 0)
    case Some(p) =>
      var tracks := match p.items
        case None => []
        case Some(items) => seq(|items|, i requires 0 <= i < |items| => Shape(items[i]));
      TracksBody(tracks, p.total.GetOr(0))
  }

  /** What one request gets back, and what it leaves in the token cache;
      `sent` is the search query, when one was sent. */
  datatype Exchange = Exchange(response: Response, sent: Option<SearchQuery>, cache: Option<CachedToken>)

  /** The request handler. */
  function Handle(cache: Option<CachedToken>, req: Request, nowMs: int, receivedMs: int,
                  clientId: Option<string>, clientSecret: Option<string>,
                  tokenReply: TokenReply, searchReply: SearchReply): (x: Exchange)
    ensures req.httpMethod == "OPTIONS" ==> x == Exchange(Response(200, NoBody), None, cache)
    ensures x.response.status in {200, 400, 500}
    ensures x.response.status == 400 <==>
      req.httpMethod != "OPTIONS" && req.body.Ok? && !Truthy(req.body.value.query)
    ensures x.response.status == 400 ==>
      x == Exchange(Response(400, ErrorBody("Query parameter is required")), None, cache)
    ensures x.sent.Some? ==>
      req.body.Ok? && Truthy(req.body.value.query) && x.sent.value == QueryFor(req.body.value)
    ensures x.response.status == 200 && req.httpMethod != "OPTIONS" ==> x.sent.Some? && searchReply.SearchOk?
    ensures req.httpMethod != "OPTIONS" && req.body.Err? ==>
      x == Exchange(Response(500, ErrorBody(req.body.message)), None, cache)
    ensures req.httpMethod != "OPTIONS" && req.body.Ok? && Truthy(req.body.value.query) ==>
      var token := TokenStep(cache, nowMs, receivedMs, clientId, clientSecret, tokenReply);
      x.cache == token.cache &&
      (token.result.Err? ==> x.response == Response(500, ErrorBody(token.result.message)) && x.sent.None?) &&
      (token.result.Ok? ==> x.sent == Some(QueryFor(req.body.value))) &&
      (token.result.Ok? && searchReply.SearchFailed? ==>
        x.response == Response(500, ErrorBody("Spotify API error: " + searchReply.statusText))) &&
      (token.result.Ok? && searchReply.SearchOk? ==> x.response == Response(200, Found(searchReply.tracks)))
  {
    if req.httpMethod == "OPTIONS" then Exchange(Response(200, NoBody), None, cache)
    else match req.body
      case Err(message) => Exchange(Response(500, ErrorBody(message)), None, cache)
      case Ok(body) =>
        if !Truthy(body.query) then
          Exchange(Response(400, ErrorBody("Query parameter is required")), None, cache)
        else
          var token := TokenStep(cache, nowMs, receivedMs, clientId, clientSecret, tokenReply);
          match token.result
          case Err(message) => Exchange(Response(500, ErrorBody(message)), None, token.cache)
          case Ok(_) =>
            var sq := QueryFor(body);
            match searchReply
            case SearchFailed(statusText) =>
              Exchange(Response(500, ErrorBody("Spotify API error: " + statusText)), Some(sq), token.cache)
            case SearchOk(page) => Exchange(Response(200, Found(page)), Some(sq), token.cache)
  }

  /** Bad requests (preflight, unreadable body, missing query) never touch
      the token cache or the Spotify endpoints. */
  lemma RejectedRequestsLeaveCache(cache: Option<CachedToken>, req: Request, nowMs: int, receivedMs: int,
                                   clientId: Option<string>, clientSecret: Option<string>,
                                   tokenReply: TokenReply, searchReply: SearchReply)
    requires req.httpMethod == "OPTIONS" || req.body.Err? || !Truthy(req.body.value.query)
    ensures var x := Handle(cache, req, nowMs, receivedMs, clientId, clientSecret, tokenReply, searchReply);
      x.cache == cache && x.sent.None?
  {
  }

  /** With a fresh cached token a searchable request succeeds or fails on
      the search reply alone: no credentials are needed and the cache stays. */
  lemma CachedTokenNeedsNoCredentials(cache: Option<CachedToken>, body: SearchBody, nowMs: int,
                                      receivedMs: int, tokenReply: TokenReply, page: Option<TracksPage>)
    requires Lookup(cache, nowMs).Some? && Truthy(body.query)
    ensures Handle(cache, Request("POST", Ok(body)), nowMs, receivedMs, None, None, tokenReply, SearchOk(page))
      == Exchange(Response(200, Found(page)), Some(QueryFor(body)), cache)
  {
  }

  /** The module-level token cache. */
  class TokenCache {
    var cached: Option<CachedToken>

    constructor ()
      ensures cached == None
    {
      cached := None;
    }

    /** `getSpotifyToken()`. */
    method GetToken(nowMs: int, receivedMs: int, clientId: Option<string>, clientSecret: Option<string>,
                    reply: TokenReply) returns (result: Result<string>, fetched: bool)
      modifies this
      ensures TokenOutcome(result, fetched, cached) == TokenStep(old(cached), nowMs, receivedMs, clientId, clientSecret, reply)
    {
      if cached.Some? && nowMs < cached.value.expiresAt {
        return Ok(cached.value.token), false;
      }
      if !Truthy(clientId) || !Truthy(clientSecret) {
        return Err("Spotify credentials not configured"), false;
      }
      match reply
      case TokenRefused(statusText) =>
        return Err("Failed to get Spotify token: " + statusText), true;
      case TokenGranted(accessToken, expiresIn) =>
        cached := Some(CachedToken(accessToken, receivedMs + (expiresIn - EarlyExpirySeconds) * 1000));
        return Ok(accessToken), true;
    }

    /** The `serve` handler, run against this cache. */
    method Serve(req: Request, nowMs: int, receivedMs: int, clientId: Option<string>,
                 clientSecret: Option<string>, tokenReply: TokenReply, searchReply: SearchReply)
      returns (response: Response, sent: Option<SearchQuery>)
      modifies this
      ensures Exchange(response, sent, cached)
        == Handle(old(cached), req, nowMs, receivedMs, clientId, clientSecret, tokenReply, searchReply)
    {
      if req.httpMethod == "OPTIONS" {
        return Response(200, NoBody), None;
      }
      if req.body.Err? {
        return Response(500, ErrorBody(req.body.message)), None;
      }
      var body := req.body.value;
      if !Truthy(body.query) {
        return Response(400, ErrorBody("Query parameter is required")), None;
      }
      var token, _ := GetToken(nowMs, receivedMs, clientId, clientSecret, tokenReply);
      if token.Err? {
        return Response(500, ErrorBody(token.message)), None;
      }
      sent := Some(QueryFor(body));
      match searchReply
      case SearchFailed(statusText) =>
        response := Response(500, ErrorBody("Spotify API error: " + statusText));
      case SearchOk(page) =>
        response := Response(200, Found(page));
    }
  }
}
