/**
 * The backend service (backend/app.py): a rate-limited client of the
 * upstream metadata APIs with a time-bounded cache in front of it, the
 * multi-provider search, and the request handlers built on them.
 *
 * The clock is an integer number of milliseconds. The upstream APIs are a
 * deterministic `Upstream`: for each request, what `make_request` returns,
 * the parsed body of a 200 response (any JSON value), or `None` when the
 * request failed in any way (a non-200 status, a timeout, a transport
 * error, a body that is not JSON).
 *
 * Every operation is a method of `Server` proved against a function of the
 * state it starts in (a `World`); the properties are lemmas about those
 * functions.
 */
module Backend {
  import opened Common
  import opened Text
  import opened PyJson
  import opened Providers
  import opened CacheStore
  import opened Fallback

  /** Minimum spacing, in milliseconds, between two upstream requests. */
  const RATE_LIMIT_MS := 500
  /** Lifetime in seconds of an info row. */
  const CACHE_DURATION := 3600
  /** Lifetime in seconds of a streaming row. */
  const EPISODE_CACHE_DURATION := 1800
  /** Lifetime in seconds of a search row. */
  const SEARCH_CACHE_DURATION := 1800

  /** An upstream request, by endpoint and arguments. */
  datatype Request =
    | ConsumetSearch(provider: string, query: string)
    | ConsumetInfo(provider: string, animeId: string)
    | ConsumetWatch(provider: string, episodeId: string)
    | JikanSearch(query: string)
    | JikanAnime(animeId: string)

  /** What `make_request` returns for each request. */
  type Upstream = Request -> Option<Json>


  /** A request and the instant it left. */
  datatype Dispatch = Dispatch(request: Request, at: int)

  /** An HTTP reply of the service: a JSON body, or an error message with its status. */
  datatype Reply<T> =
    | Ok(body: T)
    | BadRequest(message: string)
    | NotFound(message: string)
    | ServerError(message: string)
  {
    function Status(): int {
      match this
      case Ok(_) => 200
      case BadRequest(_) => 400
      case NotFound(_) => 404
      case ServerError(_) => 500
    }
  }

  /** The body of a search reply. */
  datatype SearchBody = SearchBody(results: seq<SearchResult>, total: int, query: string)

  /** The cache key of a search: the query lower-cased, so that searches differing only in case share a row. */
  function SearchKey(provider: string, query: string): string {
    "search_" + provider + "_" + Lower(query)
  }

  /** Two searches of one provider share a cache row exactly when their queries agree up to case. */
  lemma SearchKeyShared(provider: string, q1: string, q2: string)
    ensures SearchKey(provider, q1) == SearchKey(provider, q2) <==> Lower(q1) == Lower(q2)
  {
    var prefix := "search_" + provider + "_";
    if SearchKey(provider, q1) == SearchKey(provider, q2) {
      assert Lower(q1) == SearchKey(provider, q1)[|prefix|..];
      assert Lower(q2) == SearchKey(provider, q2)[|prefix|..];
    }
  }

  function InfoKey(provider: string, animeId: string): string {
    "info_" + provider + "_" + animeId
  }

  function StreamKey(provider: string, episodeId: string): string {
    "stream_" + provider + "_" + episodeId
  }

  /** `cached.get('results', [])` on a document read from a search row. */
  function CachedHits(doc: CacheDoc): seq<SearchResult> {
    if doc.SearchBundle? then doc.results else []
  }

  // ---------------------------------------------------------------------------
  // The backend's state and its operations as functions of it
  // ---------------------------------------------------------------------------

  /**
   * What the operations change: the cache tables, the clock, the rate
   * limiter's `last_request_time`, and the log of requests sent upstream.
   */
  datatype World = World(cache: Cache, clock: int, last: int, sent: seq<Dispatch>)

  /** Consecutive requests left at least RATE_LIMIT_MS apart. */
  ghost predicate Spaced(sent: seq<Dispatch>) {
    forall i :: 0 <= i < |sent| - 1 ==> sent[i].at + RATE_LIMIT_MS <= sent[i + 1].at
  }

  /** The limiter's record is not in the future, and no request left after it. */
  ghost predicate WorldValid(w: World) {
    w.last <= w.clock && Spaced(w.sent) && (w.sent != [] ==> w.sent[|w.sent| - 1].at <= w.last)
  }

  /** `make_request` up to the network: `rate_limit`, then the request leaves. */
  function Sent(w: World, req: Request): World {
    var at := Max(w.clock, w.last + RATE_LIMIT_MS);
    World(w.cache, at, at, w.sent + [Dispatch(req, at)])
  }

  /** `search_anime_consumet` started in `w`: its outcome and the state it leaves. */
  function SearchStep(up: Upstream, w: World, provider: string, query: string)
    : (Outcome<seq<SearchResult>>, World)
  {
    var key := SearchKey(provider, query);
    var cached := Lookup(w.cache, AnimeCache, key, w.clock);
    if cached.Some? then (Returned(CachedHits(cached.value)), w)
    else
      var req := ConsumetSearch(provider, query);
      var w1 := Sent(w, req);
      match SearchPageOf(up(req), provider)
      case Raised => (Raised, w1)
      case Returned(None) => (Returned([]), w1)
      case Returned(Some(hits)) =>
        (Returned(hits),
         w1.(cache := Store(w1.cache, AnimeCache, key, SearchBundle(hits, provider), w1.clock, SEARCH_CACHE_DURATION)))
  }

  /** `get_anime_info_consumet` started in `w`. */
  function InfoStep(up: Upstream, w: World, provider: string, animeId: string)
    : (Outcome<Option<CacheDoc>>, World)
  {
    var key := InfoKey(provider, animeId);
    var cached := Lookup(w.cache, AnimeCache, key, w.clock);
    if cached.Some? then (Returned(cached), w)
    else
      var req := ConsumetInfo(provider, animeId);
      var w1 := Sent(w, req);
      match InfoOf(up(req), provider)
      case Raised => (Raised, w1)
      case Returned(None) => (Returned(None), w1)
      case Returned(Some(info)) =>
        (Returned(Some(InfoDoc(info))),
         w1.(cache := Store(w1.cache, AnimeCache, key, InfoDoc(info), w1.clock, CACHE_DURATION)))
  }

  /** `get_episode_streaming_links` started in `w`, reading and writing the streaming table by its own key. */
  function WatchStep(up: Upstream, w: World, provider: string, episodeId: string)
    : (Outcome<Option<CacheDoc>>, World)
  {
    var key := StreamKey(provider, episodeId);
    var cached := Lookup(w.cache, StreamingCache, key, w.clock);
    if cached.Some? then (Returned(cached), w)
    else
      var req := ConsumetWatch(provider, episodeId);
      var w1 := Sent(w, req);
      match WatchOf(up(req), provider)
      case Raised => (Raised, w1)
      case Returned(None) => (Returned(None), w1)
      case Returned(Some(info)) =>
        (Returned(Some(StreamDoc(info))),
         w1.(cache := Store(w1.cache, StreamingCache, key, StreamDoc(info), w1.clock, EPISODE_CACHE_DURATION)))
  }

  /** One turn of the backup loop: a search whose exception is caught, then a pause when it answered. */
  function TryStep(up: Upstream, w: World, provider: string, query: string)
    : (Outcome<seq<SearchResult>>, World)
  {
    var (found, w1) := SearchStep(up, w, provider, query);
    if found.Returned? then (found, w1.(clock := w1.clock + RATE_LIMIT_MS)) else (found, w1)
  }

  /**
   * A loop over `keys` that threads a state through `step`: each key with
   * what its turn returned, in order, and the state after the last turn.
   */
  function Chain<S, R>(step: (S, string) -> (R, S), s: S, keys: seq<string>): (seq<(string, R)>, S) {
    if keys == [] then ([], s)
    else
      var before := Chain(step, s, keys[..|keys| - 1]);
      var next := step(before.1, keys[|keys| - 1]);
      (before.0 + [(keys[|keys| - 1], next.0)], next.1)
  }

  /** The loop over one more key: the earlier turns, then that key's turn in the state they left. */
  lemma ChainNext<S, R>(step: (S, string) -> (R, S), s: S, keys: seq<string>, k: nat)
    requires k < |keys|
    ensures var before := Chain(step, s, keys[..k]);
            var next := step(before.1, keys[k]);
            Chain(step, s, keys[..k + 1]) == (before.0 + [(keys[k], next.0)], next.1)
  {
    assert keys[..k + 1][..k] == keys[..k];
  }

  /** A turn of the backup loop as a step on the state. */
  function BackupTurn(up: Upstream, query: string): (World, string) -> (Outcome<seq<SearchResult>>, World) {
    (w, provider) => TryStep(up, w, provider, query)
  }

  /** The backup loop over `providers`, in order, each provider asked in the state the previous one left. */
  function BackupsStep(up: Upstream, w: World, providers: seq<string>, query: string)
    : (seq<(string, Outcome<seq<SearchResult>>)>, World)
  {
    Chain(BackupTurn(up, query), w, providers)
  }

  /** `search_with_fallback` started in `w`. */
  function FallbackStep(up: Upstream, w: World, query: string): (Outcome<seq<SearchResult>>, World) {
    var (first, w1) := SearchStep(up, w, DEFAULT_PROVIDER, query);
    match first
    case Raised => (Raised, w1)
    case Returned(hits) =>
      if |hits| < MIN_RESULTS then
        var (backups, w2) := BackupsStep(up, w1, BACKUP_PROVIDERS, query);
        (Merged(hits, backups), w2)
      else (Merged(hits, []), w1)
  }

  /** `search_jikan_fallback` started in `w`. */
  function JikanSearchStep(up: Upstream, w: World, query: string): (seq<SearchResult>, World) {
    (JikanHits(up(JikanSearch(query))), Sent(w, JikanSearch(query)))
  }

  /** `api_search` started in `w`, for the `q` parameter (absent: `None`). */
  function SearchReply(up: Upstream, w: World, q: Option<string>): (Reply<SearchBody>, World) {
    var query := Trim(Python, q.GetOr(""));
    if |query| < 2 then (BadRequest("Query must be at least 2 characters"), w)
    else
      var (merged, w1) := FallbackStep(up, w, query);
      match merged
      case Raised => (ServerError("Search failed"), w1)
      case Returned(hits) =>
        if hits != [] then (Ok(SearchBody(hits, |hits|, query)), w1)
        else
          var (jikan, w2) := JikanSearchStep(up, w1, query);
          (Ok(SearchBody(jikan, |jikan|, query)), w2)
  }

  /** The reply for what a cached lookup ended with: the document, 404 for none, 500 for an exception. */
  function ReplyOf(o: Outcome<Option<CacheDoc>>, missing: string, failed: string): Reply<CacheDoc> {
    match o
    case Raised => ServerError(failed)
    case Returned(None) => NotFound(missing)
    case Returned(Some(doc)) => Ok(doc)
  }

  /** `api_anime_info` started in `w`. */
  function AnimeInfoReply(up: Upstream, w: World, provider: string, animeId: string): (Reply<CacheDoc>, World) {
    if provider == JIKAN_PROVIDER then
      var req := JikanAnime(animeId);
      var info := match JikanAnimeOf(up(req))
        case Raised => Raised
        case Returned(None) => Returned(None)
        case Returned(Some(info)) => Returned(Some(InfoDoc(info)));
      (ReplyOf(info, "Anime not found", "Failed to fetch anime info"), Sent(w, req))
    else
      var (info, w1) := InfoStep(up, w, provider, animeId);
      (ReplyOf(info, "Anime not found", "Failed to fetch anime info"), w1)
  }

  /** `api_watch_episode` started in `w`, over the corrected streaming operation. */
  function WatchReply(up: Upstream, w: World, provider: string, episodeId: string): (Reply<CacheDoc>, World) {
    var (info, w1) := WatchStep(up, w, provider, episodeId);
    (ReplyOf(info, "Episode not found", "Failed to fetch streaming links"), w1)
  }

  // ---------------------------------------------------------------------------
  // The server
  // ---------------------------------------------------------------------------

  class Server {
    const upstream: Upstream
    /** The cache tables. */
    var cache: Cache
    /** `last_request_time`: when the last request was let through. */
    var lastRequestTime: int
    /** The current time. */
    var clock: int
    /** Every request sent upstream so far, in order. */
    var sent: seq<Dispatch>

    function State(): World
      reads this
    {
      World(cache, clock, lastRequestTime, sent)
    }

    ghost predicate Valid()
      reads this
    {
      WorldValid(State())
    }

    /** A fresh process: `last_request_time = 0`, nothing sent. */
    constructor (upstream: Upstream, cache: Cache, start: int)
      requires start >= 0
      ensures Valid()
      ensures this.upstream == upstream && State() == World(cache, start, 0, [])
    {
      this.upstream := upstream;
      this.cache := cache;
      clock := start;
      lastRequestTime := 0;
      sent := [];
    }

    /** `time.sleep(ms / 1000)`. */
    method Sleep(ms: nat)
      requires Valid()
      modifies this`clock
      ensures Valid() && State() == old(State()).(clock := old(clock) + ms)
    {
      clock := clock + ms;
    }

    /**
     * `rate_limit`: wait until RATE_LIMIT_MS have passed since the previous
     * request, then record the current time as the last request time.
     */
    method RateLimit()
      requires Valid()
      modifies this`clock, this`lastRequestTime
      ensures Valid()
      ensures clock == Max(old(clock), old(lastRequestTime) + RATE_LIMIT_MS)
      ensures lastRequestTime == clock
    {
      var elapsed := clock - lastRequestTime;
      if elapsed < RATE_LIMIT_MS {
        clock := clock + (RATE_LIMIT_MS - elapsed);
      }
      lastRequestTime := clock;
    }

    /** The rate-limited part of `make_request`: the request leaves once the limiter lets it. */
    method Send(req: Request)
      requires Valid()
      modifies this`clock, this`lastRequestTime, this`sent
      ensures Valid() && State() == Sent(old(State()), req)
    {
      RateLimit();
      sent := sent + [Dispatch(req, clock)];
    }

    /** `get_from_cache` on a table whose key column is the one the query names. */
    method GetFromCache(t: Table, key: string) returns (r: Option<CacheDoc>)
      ensures r == Lookup(cache, t, key, clock)
    {
      r := Lookup(cache, t, key, clock);
    }

    /** `save_to_cache`. */
    method SaveToCache(t: Table, key: string, doc: CacheDoc, seconds: int)
      requires Valid()
      modifies this`cache
      ensures Valid() && State() == old(State()).(cache := Store(old(cache), t, key, doc, clock, seconds))
    {
      cache := Store(cache, t, key, doc, clock, seconds);
    }

    /** `search_anime_consumet`. */
    method SearchAnimeConsumet(query: string, provider: string) returns (r: Outcome<seq<SearchResult>>)
      requires Valid()
      modifies this`cache, this`clock, this`lastRequestTime, this`sent
      ensures Valid() && (r, State()) == SearchStep(upstream, old(State()), provider, query)
    {
      var key := SearchKey(provider, query);
      var cached := GetFromCache(AnimeCache, key);
      if cached.Some? {
        return Returned(CachedHits(cached.value));
      }
      var req := ConsumetSearch(provider, query);
      Send(req);
      var data := upstream(req);
      if data.None? || !Truthy(data.value) {
        return Returned([]);
      }
      var found := Contains(data.value, "results");
      if found.Raised? {
        return Raised;
      }
      if !found.value {
        return Returned([]);
      }
      var results := Index(data.value, "results");
      if results.Raised? {
        return Raised;
      }
      var items := Elements(results.value);
      if items.Raised? {
        return Raised;
      }
      r := BuildList(items.value, SearchItemOf(provider));
      if r.Returned? {
        SaveToCache(AnimeCache, key, SearchBundle(r.value, provider), SEARCH_CACHE_DURATION);
      }
    }

    /** `get_anime_info_consumet`. */
    method GetAnimeInfoConsumet(animeId: string, provider: string) returns (r: Outcome<Option<CacheDoc>>)
      requires Valid()
      modifies this`cache, this`clock, this`lastRequestTime, this`sent
      ensures Valid() && (r, State()) == InfoStep(upstream, old(State()), provider, animeId)
    {
      var key := InfoKey(provider, animeId);
      var cached := GetFromCache(AnimeCache, key);
      if cached.Some? {
        return Returned(cached);
      }
      var req := ConsumetInfo(provider, animeId);
      Send(req);
      var info := InfoOf(upstream(req), provider);
      if info.Raised? {
        return Raised;
      }
      if info.value.None? {
        return Returned(None);
      }
      SaveToCache(AnimeCache, key, InfoDoc(info.value.value), CACHE_DURATION);
      return Returned(Some(InfoDoc(info.value.value)));
    }

    /** `get_episode_streaming_links`, reading and writing the streaming table by its own key column. */
    method GetEpisodeStreamingLinks(episodeId: string, provider: string) returns (r: Outcome<Option<CacheDoc>>)
      requires Valid()
      modifies this`cache, this`clock, this`lastRequestTime, this`sent
      ensures Valid() && (r, State()) == WatchStep(upstream, old(State()), provider, episodeId)
    {
      var key := StreamKey(provider, episodeId);
      var cached := GetFromCache(StreamingCache, key);
      if cached.Some? {
        return Returned(cached);
      }
      var req := ConsumetWatch(provider, episodeId);
      Send(req);
      var info := WatchOf(upstream(req), provider);
      if info.Raised? {
        return Raised;
      }
      if info.value.None? {
        return Returned(None);
      }
      SaveToCache(StreamingCache, key, StreamDoc(info.value.value), EPISODE_CACHE_DURATION);
      return Returned(Some(StreamDoc(info.value.value)));
    }

    /** `search_with_fallback`. */
    method SearchWithFallback(query: string) returns (r: Outcome<seq<SearchResult>>)
      requires Valid()
      modifies this`cache, this`clock, this`lastRequestTime, this`sent
      ensures Valid() && (r, State()) == FallbackStep(upstream, old(State()), query)
    {
      var first := SearchAnimeConsumet(query, DEFAULT_PROVIDER);
      if first.Raised? {
        return Raised;
      }
      var allResults := first.value;
      ghost var backups := [];
      if |allResults| < MIN_RESULTS {
        allResults, backups := AskBackups(query, allResults, BACKUP_PROVIDERS);
      }
      r := MergeCollected(allResults, first.value, backups);
    }

    /**
     * The backup loop of `search_with_fallback` over the provider list
     * `providers` (BACKUP_PROVIDERS): every provider in order, an exception
     * skipping only that provider, the hits of the others appended to `hits`.
     */
    method AskBackups(query: string, hits: seq<SearchResult>, providers: seq<string>)
      returns (allResults: seq<SearchResult>, ghost backups: seq<(string, Outcome<seq<SearchResult>>)>)
      requires Valid()
      modifies this`cache, this`clock, this`lastRequestTime, this`sent
      ensures Valid() && (backups, State()) == BackupsStep(upstream, old(State()), providers, query)
      ensures allResults == hits + Successes(backups)
    {
      allResults, backups := hits, [];
      ghost var start := State();
      var k := 0;
      while k < |providers|
        invariant 0 <= k <= |providers|
        invariant Valid() && (backups, State()) == BackupsStep(upstream, start, providers[..k], query)
        invariant allResults == hits + Successes(backups)
      {
        var provider := providers[k];
        ChainNext(BackupTurn(upstream, query), start, providers, k);
        ghost var before := State();
        var found := TryBackup(query, provider);
        assert (found, State()) == BackupTurn(upstream, query)(before, provider);
        CollectedAppend(hits, allResults, backups, (provider, found));
        if found.Returned? {
          allResults := allResults + found.value;
        }
        backups := backups + [(provider, found)];
        k := k + 1;
      }
      assert providers[..k] == providers;
    }

    /**
     * The body of the backup loop: one provider search whose exception is
     * caught, followed by a RATE_LIMIT_MS pause when it answered.
     */
    method TryBackup(query: string, provider: string) returns (found: Outcome<seq<SearchResult>>)
      requires Valid()
      modifies this`cache, this`clock, this`lastRequestTime, this`sent
      ensures Valid() && (found, State()) == TryStep(upstream, old(State()), provider, query)
    {
      found := SearchAnimeConsumet(query, provider);
      if found.Returned? {
        Sleep(RATE_LIMIT_MS);
      }
    }

    /** `search_jikan_fallback`: any exception after the request gives `[]`. */
    method SearchJikanFallback(query: string) returns (r: seq<SearchResult>)
      requires Valid()
      modifies this`clock, this`lastRequestTime, this`sent
      ensures Valid() && (r, State()) == JikanSearchStep(upstream, old(State()), query)
    {
      var req := JikanSearch(query);
      Send(req);
      var data := upstream(req);
      if data.None? || !Truthy(data.value) {
        return [];
      }
      var found := Contains(data.value, "data");
      if found.Raised? || !found.value {
        return [];
      }
      var list := Index(data.value, "data");
      if list.Raised? {
        return [];
      }
      var items := Elements(list.value);
      if items.Raised? {
        return [];
      }
      var mapped := BuildList(items.value, JikanSearchItem);
      if mapped.Raised? {
        return [];
      }
      return mapped.value;
    }

    /** `api_search`. */
    method ApiSearch(q: Option<string>) returns (reply: Reply<SearchBody>)
      requires Valid()
      modifies this`cache, this`clock, this`lastRequestTime, this`sent
      ensures Valid() && (reply, State()) == SearchReply(upstream, old(State()), q)
    {
      var query := Trim(Python, q.GetOr(""));
      if |query| < 2 {
        return BadRequest("Query must be at least 2 characters");
      }
      var results := SearchWithFallback(query);
      if results.Raised? {
        return ServerError("Search failed");
      }
      var hits := results.value;
      if hits == [] {
        hits := SearchJikanFallback(query);
      }
      return Ok(SearchBody(hits, |hits|, query));
    }

    /** `api_anime_info`. */
    method ApiAnimeInfo(provider: string, animeId: string) returns (reply: Reply<CacheDoc>)
      requires Valid()
      modifies this`cache, this`clock, this`lastRequestTime, this`sent
      ensures Valid() && (reply, State()) == AnimeInfoReply(upstream, old(State()), provider, animeId)
    {
      if provider == JIKAN_PROVIDER {
        var req := JikanAnime(animeId);
        Send(req);
        var info := JikanAnimeOf(upstream(req));
        if info.Raised? {
          return ServerError("Failed to fetch anime info");
        }
        if info.value.Some? {
          return Ok(InfoDoc(info.value.value));
        }
      } else {
        var info := GetAnimeInfoConsumet(animeId, provider);
        if info.Raised? {
          return ServerError("Failed to fetch anime info");
        }
        if info.value.Some? {
          return Ok(info.value.value);
        }
      }
      return NotFound("Anime not found");
    }

    /** `api_watch_episode`, over the corrected streaming operation. */
    method ApiWatch(provider: string, episodeId: string) returns (reply: Reply<CacheDoc>)
      requires Valid()
      modifies this`cache, this`clock, this`lastRequestTime, this`sent
      ensures Valid() && (reply, State()) == WatchReply(upstream, old(State()), provider, episodeId)
    {
      var info := GetEpisodeStreamingLinks(episodeId, provider);
      if info.Raised? {
        return ServerError("Failed to fetch streaming links");
      }
      if info.value.Some? {
        return Ok(info.value.value);
      }
      return NotFound("Episode not found");
    }
  }
}
