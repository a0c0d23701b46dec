/**
 * The backend's cache queries as written (backend/app.py:112-134), against
 * the columns the tables are created with (backend/app.py:61-107). Both
 * queries name an `id` column whatever the table; the streaming table has
 * none, so every read of it raises, and `/api/watch` can only fail. The
 * rest of the model uses the queries against each table's own key column.
 */
module Findings {
  import opened Common
  import opened PyJson
  import opened Providers
  import opened CacheStore
  import opened Backend

  /** The columns of each cache table as `init_database` creates it. */
  function Columns(t: Table): set<string> {
    match t
    case AnimeCache => {"id", "provider", "data", "cached_at", "expires_at"}
    case EpisodeCache => {"anime_id", "provider", "episode_number", "data", "cached_at", "expires_at"}
    case StreamingCache => {"episode_id", "provider", "data", "cached_at", "expires_at"}
  }

  /** The columns the `SELECT` of `get_from_cache` names. */
  const READ_COLUMNS: set<string> := {"data", "id", "expires_at"}
  /** The columns the `INSERT OR REPLACE` of `save_to_cache` names. */
  const WRITE_COLUMNS: set<string> := {"id", "provider", "data", "cached_at", "expires_at"}

  /**
   * `get_from_cache` as written, on a database whose tables have the
   * columns `schema` gives: a query naming a missing column raises;
   * otherwise the live row's document, if its text parses.
   */
  function GetFromCacheAsWritten(schema: Table -> set<string>, c: Cache, t: Table, key: string, now: int)
    : (r: Outcome<Option<CacheDoc>>)
    ensures r.Raised? <==> !(READ_COLUMNS <= schema(t))
    ensures r.Returned? ==> r.value == Lookup(c, t, key, now)
  {
    if READ_COLUMNS <= schema(t) then Returned(Lookup(c, t, key, now)) else Raised
  }

  /** `save_to_cache` as written: a statement naming a missing column raises; otherwise the row is stored. */
  function SaveToCacheAsWritten(schema: Table -> set<string>, c: Cache, t: Table, key: string, doc: CacheDoc,
                                now: int, seconds: int): (r: Outcome<Cache>)
    ensures r.Raised? <==> !(WRITE_COLUMNS <= schema(t))
    ensures r.Returned? ==> r.value == Store(c, t, key, doc, now, seconds)
  {
    if WRITE_COLUMNS <= schema(t) then Returned(Store(c, t, key, doc, now, seconds)) else Raised
  }

  /**
   * On the search and info table the queries as written behave as the
   * cache operations the rest of the model uses.
   */
  lemma AnimeCacheQueriesWork(c: Cache, key: string, doc: CacheDoc, now: int, seconds: int)
    ensures GetFromCacheAsWritten(Columns, c, AnimeCache, key, now) == Returned(Lookup(c, AnimeCache, key, now))
    ensures SaveToCacheAsWritten(Columns, c, AnimeCache, key, doc, now, seconds) ==
      Returned(Store(c, AnimeCache, key, doc, now, seconds))
  {
    assert READ_COLUMNS <= Columns(AnimeCache);
    assert WRITE_COLUMNS <= Columns(AnimeCache);
  }

  /** On the streaming table both queries raise, whatever the key and the rows. */
  lemma StreamingQueriesRaise(c: Cache, key: string, doc: CacheDoc, now: int, seconds: int)
    ensures GetFromCacheAsWritten(Columns, c, StreamingCache, key, now) == Raised
    ensures SaveToCacheAsWritten(Columns, c, StreamingCache, key, doc, now, seconds) == Raised
  {
    assert "id" in READ_COLUMNS && "id" !in Columns(StreamingCache);
  }

  /**
   * `api_watch_episode` over `get_episode_streaming_links` as written,
   * started in `w` on a database whose tables have the columns `schema`.
   */
  function WatchReplyAsWritten(schema: Table -> set<string>, up: Upstream, w: World, provider: string, episodeId: string)
    : (Reply<CacheDoc>, World)
  {
    var key := StreamKey(provider, episodeId);
    var failed := ServerError("Failed to fetch streaming links");
    match GetFromCacheAsWritten(schema, w.cache, StreamingCache, key, w.clock)
    case Raised => (failed, w)
    case Returned(Some(doc)) => (Ok(doc), w)
    case Returned(None) =>
      var req := ConsumetWatch(provider, episodeId);
      var w1 := Sent(w, req);
      match WatchOf(up(req), provider)
      case Raised => (failed, w1)
      case Returned(None) => (NotFound("Episode not found"), w1)
      case Returned(Some(links)) =>
        match SaveToCacheAsWritten(schema, w1.cache, StreamingCache, key, StreamDoc(links), w1.clock,
                                   EPISODE_CACHE_DURATION)
        case Raised => (failed, w1)
        case Returned(c) => (Ok(StreamDoc(links)), w1.(cache := c))
  }

  /** The handler as written, on the server's state. */
  method ApiWatchAsWritten(s: Server, schema: Table -> set<string>, provider: string, episodeId: string)
    returns (reply: Reply<CacheDoc>)
    requires s.Valid()
    modifies s`cache, s`clock, s`lastRequestTime, s`sent
    ensures s.Valid() && (reply, s.State()) == WatchReplyAsWritten(schema, s.upstream, old(s.State()), provider, episodeId)
  {
    var key := StreamKey(provider, episodeId);
    var cached := GetFromCacheAsWritten(schema, s.cache, StreamingCache, key, s.clock);
    if cached.Raised? {
      return ServerError("Failed to fetch streaming links");
    }
    if cached.value.Some? {
      return Ok(cached.value.value);
    }
    var req := ConsumetWatch(provider, episodeId);
    s.Send(req);
    var links := WatchOf(s.upstream(req), provider);
    if links.Raised? {
      return ServerError("Failed to fetch streaming links");
    }
    if links.value.None? {
      return NotFound("Episode not found");
    }
    var saved := SaveToCacheAsWritten(schema, s.cache, StreamingCache, key, StreamDoc(links.value.value), s.clock,
                                      EPISODE_CACHE_DURATION);
    if saved.Raised? {
      return ServerError("Failed to fetch streaming links");
    }
    s.cache := saved.value;
    return Ok(StreamDoc(links.value.value));
  }

  /**
   * On a streaming table with every column both queries name, the handler
   * as written is the corrected one (Backend.WatchReply).
   */
  lemma WatchAsWrittenAgrees(schema: Table -> set<string>, up: Upstream, w: World, provider: string, episodeId: string)
    requires READ_COLUMNS <= schema(StreamingCache) && WRITE_COLUMNS <= schema(StreamingCache)
    ensures WatchReplyAsWritten(schema, up, w, provider, episodeId) == WatchReply(up, w, provider, episodeId)
  {
    var key := StreamKey(provider, episodeId);
    assert GetFromCacheAsWritten(schema, w.cache, StreamingCache, key, w.clock) ==
      Returned(Lookup(w.cache, StreamingCache, key, w.clock));
  }

  /**
   * With the tables `init_database` creates, every `/api/watch` request is
   * answered 500 before anything is sent or stored.
   */
  lemma WatchAlwaysFails(up: Upstream, w: World, provider: string, episodeId: string)
    ensures WatchReplyAsWritten(Columns, up, w, provider, episodeId) == (ServerError("Failed to fetch streaming links"), w)
  {
    StreamingQueriesRaise(w.cache, StreamKey(provider, episodeId), StreamDoc(StreamingInfo(JNull, JNull, JNull, JNull, "")), w.clock, 0);
  }

  /**
   * An episode the upstream API knows: the handler as written answers 500,
   * the corrected one answers 200 with the links.
   */
  lemma WatchFindingWitness()
    ensures var up: Upstream := _ => Some(JObj([("sources", JArr([]))]));
      var w := World(map[], 0, 0, []);
      WatchReplyAsWritten(Columns, up, w, DEFAULT_PROVIDER, "ep-1").0.Status() == 500 &&
      WatchReply(up, w, DEFAULT_PROVIDER, "ep-1").0.Ok?
  {
    var up: Upstream := _ => Some(JObj([("sources", JArr([]))]));
    var w := World(map[], 0, 0, []);
    WatchAlwaysFails(up, w, DEFAULT_PROVIDER, "ep-1");
    assert Truthy(JObj([("sources", JArr([]))]));
  }
}
