/**
 * What the backend's operations promise across calls (backend/app.py):
 * requests leave at least RATE_LIMIT_MS apart and only the expected ones
 * leave, a search or an info lookup is answered from the cache for the
 * lifetime of its row, the backups are asked in order with each outcome the
 * one its provider gives in the state the previous ones left, and the
 * handlers' replies follow from what the operations ended with.
 */
module BackendLaws {
  import opened Common
  import opened Text
  import opened PyJson
  import opened Providers
  import opened CacheStore
  import opened Fallback
  import opened Backend

  // ---------------------------------------------------------------------------
  // The backup loop
  // ---------------------------------------------------------------------------

  /** Every turn of a Chain: its key, and what the step returned in the state the earlier turns left. */
  lemma {:induction false} ChainTurns<S, R>(step: (S, string) -> (R, S), s: S, keys: seq<string>)
    ensures |Chain(step, s, keys).0| == |keys|
    ensures forall k :: 0 <= k < |keys| ==>
      Chain(step, s, keys).0[k] == (keys[k], step(Chain(step, s, keys[..k]).1, keys[k]).0)
  {
    if keys != [] {
      var n := |keys| - 1;
      var init := keys[..n];
      ChainTurns(step, s, init);
      forall k | 0 <= k < |keys|
        ensures Chain(step, s, keys).0[k] == (keys[k], step(Chain(step, s, keys[..k]).1, keys[k]).0)
      {
        if k < n {
          assert init[..k] == keys[..k];
        }
      }
    }
  }

  /**
   * `for provider in BACKUP_PROVIDERS`: every provider is asked once, in
   * order, and each outcome is that provider's search (with its exception
   * caught) started in the state the earlier providers left.
   */
  lemma BackupOutcomes(up: Upstream, w: World, providers: seq<string>, query: string)
    ensures var backups := BackupsStep(up, w, providers, query).0;
      Asked(backups) == providers &&
      forall k :: 0 <= k < |providers| ==>
        backups[k].1 == TryStep(up, BackupsStep(up, w, providers[..k], query).1, providers[k], query).0
  {
    ChainTurns(BackupTurn(up, query), w, providers);
  }

  // ---------------------------------------------------------------------------
  // Rate limiting and what is sent
  // ---------------------------------------------------------------------------

  /** `w2` is a later state than `w`: the clock has not gone back and nothing sent is forgotten. */
  ghost predicate Advances(w: World, w2: World) {
    WorldValid(w2) && w.clock <= w2.clock && w.last <= w2.last && w.sent <= w2.sent
  }

  /** Advancing twice is advancing, and what the first stretch sent stays in place. */
  lemma AdvancesTrans(w: World, w1: World, w2: World)
    requires Advances(w, w1) && Advances(w1, w2)
    ensures Advances(w, w2)
    ensures forall i :: 0 <= i < |w1.sent| ==> w2.sent[i] == w1.sent[i]
  {
    assert w2.sent[..|w1.sent|] == w1.sent;
    assert w1.sent[..|w.sent|] == w.sent;
    assert w2.sent[..|w1.sent|][..|w.sent|] == w2.sent[..|w.sent|];
  }

  /** Between `w` and `w2` at most `|providers|` requests left, each a search for `query` at one of `providers`. */
  ghost predicate SearchesOnly(w: World, w2: World, providers: seq<string>, query: string)
    requires w.sent <= w2.sent
  {
    |w2.sent| <= |w.sent| + |providers| &&
    forall i :: |w.sent| <= i < |w2.sent| ==>
      w2.sent[i].request.ConsumetSearch? && w2.sent[i].request.query == query &&
      w2.sent[i].request.provider in providers
  }

  /** A request leaves no earlier than RATE_LIMIT_MS after the previous one, and is logged last. */
  lemma SentAdvances(w: World, req: Request)
    requires WorldValid(w)
    ensures Advances(w, Sent(w, req))
    ensures Sent(w, req).sent == w.sent + [Dispatch(req, Sent(w, req).clock)]
    ensures Sent(w, req).clock >= w.last + RATE_LIMIT_MS
  {
    var w2 := Sent(w, req);
    assert w2.sent[..|w.sent|] == w.sent;
  }

  /** A search sends at most its own request and keeps the limiter's guarantee. */
  lemma SearchStepAdvances(up: Upstream, w: World, provider: string, query: string)
    requires WorldValid(w)
    ensures var w2 := SearchStep(up, w, provider, query).1;
      Advances(w, w2) && SearchesOnly(w, w2, [provider], query)
  {
    SentAdvances(w, ConsumetSearch(provider, query));
  }

  lemma TryStepAdvances(up: Upstream, w: World, provider: string, query: string)
    requires WorldValid(w)
    ensures var w2 := TryStep(up, w, provider, query).1;
      Advances(w, w2) && SearchesOnly(w, w2, [provider], query)
  {
    SearchStepAdvances(up, w, provider, query);
  }

  /** The backup loop sends at most one search per provider, each for the query. */
  lemma {:induction false} BackupsStepAdvances(up: Upstream, w: World, providers: seq<string>, query: string)
    requires WorldValid(w)
    ensures var w2 := BackupsStep(up, w, providers, query).1;
      Advances(w, w2) && SearchesOnly(w, w2, providers, query)
  {
    if providers != [] {
      var n := |providers| - 1;
      var init := providers[..n];
      BackupsStepAdvances(up, w, init, query);
      var w1 := BackupsStep(up, w, init, query).1;
      TryStepAdvances(up, w1, providers[n], query);
      var w2 := BackupsStep(up, w, providers, query).1;
      assert w2 == TryStep(up, w1, providers[n], query).1;
      AdvancesTrans(w, w1, w2);
      forall i | |w.sent| <= i < |w2.sent|
        ensures w2.sent[i].request.ConsumetSearch? && w2.sent[i].request.query == query &&
                w2.sent[i].request.provider in providers
      {
        if i < |w1.sent| {
          assert w2.sent[i] == w1.sent[i];
          assert w1.sent[i].request.provider in init;
        }
      }
    }
  }

  /**
   * `search_with_fallback` sends at most four requests, each a search for
   * the query at the default or a backup provider, RATE_LIMIT_MS apart.
   */
  lemma FallbackStepAdvances(up: Upstream, w: World, query: string)
    requires WorldValid(w)
    ensures var w2 := FallbackStep(up, w, query).1;
      Advances(w, w2) && SearchesOnly(w, w2, [DEFAULT_PROVIDER] + BACKUP_PROVIDERS, query)
  {
    var providers := [DEFAULT_PROVIDER] + BACKUP_PROVIDERS;
    var (first, w1) := SearchStep(up, w, DEFAULT_PROVIDER, query);
    SearchStepAdvances(up, w, DEFAULT_PROVIDER, query);
    if first.Returned? && |first.value| < MIN_RESULTS {
      BackupsStepAdvances(up, w1, BACKUP_PROVIDERS, query);
      var w2 := BackupsStep(up, w1, BACKUP_PROVIDERS, query).1;
      AdvancesTrans(w, w1, w2);
      forall i | |w.sent| <= i < |w2.sent|
        ensures w2.sent[i].request.ConsumetSearch? && w2.sent[i].request.query == query &&
                w2.sent[i].request.provider in providers
      {
        if i < |w1.sent| {
          assert w2.sent[i] == w1.sent[i];
        }
      }
    }
  }

  /** Between `w` and `w2` at most `n` requests left, each a provider or Jikan search for `query`. */
  ghost predicate SearchesFor(w: World, w2: World, query: string, n: nat)
    requires w.sent <= w2.sent
  {
    |w2.sent| <= |w.sent| + n &&
    forall i :: |w.sent| <= i < |w2.sent| ==>
      (w2.sent[i].request.ConsumetSearch? || w2.sent[i].request.JikanSearch?) && w2.sent[i].request.query == query
  }

  /** Provider searches for the query are searches for the query. */
  lemma SearchesOnlyFor(w: World, w2: World, providers: seq<string>, query: string)
    requires w.sent <= w2.sent && SearchesOnly(w, w2, providers, query)
    ensures SearchesFor(w, w2, query, |providers|)
  {
  }

  /** The Jikan search after the provider searches adds one search for the query. */
  lemma JikanAfterSearches(w: World, w1: World, query: string, n: nat)
    requires WorldValid(w) && Advances(w, w1) && SearchesFor(w, w1, query, n)
    ensures var w2 := Sent(w1, JikanSearch(query));
      Advances(w, w2) && SearchesFor(w, w2, query, n + 1)
  {
    SentAdvances(w1, JikanSearch(query));
    var w2 := Sent(w1, JikanSearch(query));
    AdvancesTrans(w, w1, w2);
  }

  /**
   * `api_search` keeps the limiter's guarantee and sends only searches for
   * the stripped query: at most four provider searches and one Jikan search.
   */
  lemma SearchReplyAdvances(up: Upstream, w: World, q: Option<string>)
    requires WorldValid(w)
    ensures var w2 := SearchReply(up, w, q).1;
      Advances(w, w2) && SearchesFor(w, w2, Trim(Python, q.GetOr("")), 5)
  {
    var query := Trim(Python, q.GetOr(""));
    if |query| < 2 {
      assert SearchReply(up, w, q).1 == w;
    } else {
      var fallback := FallbackStep(up, w, query);
      var w1 := fallback.1;
      FallbackStepAdvances(up, w, query);
      SearchesOnlyFor(w, w1, [DEFAULT_PROVIDER] + BACKUP_PROVIDERS, query);
      if fallback.0.Returned? && fallback.0.value == [] {
        JikanAfterSearches(w, w1, query, 4);
        assert SearchReply(up, w, q).1 == Sent(w1, JikanSearch(query));
      } else {
        assert SearchReply(up, w, q).1 == w1;
      }
    }
  }

  // ---------------------------------------------------------------------------
  // The cache in front of the upstream APIs
  // ---------------------------------------------------------------------------

  /**
   * A search whose page was stored is answered from the cache, with the same
   * hits and nothing sent, by any search of that provider for the same query
   * up to case, until SEARCH_CACHE_DURATION seconds have passed.
   */
  lemma SearchStepCaches(up: Upstream, w: World, provider: string, query: string,
                         hits: seq<SearchResult>, w2: World, query2: string)
    requires Lookup(w.cache, AnimeCache, SearchKey(provider, query), w.clock).None?
    requires SearchPageOf(up(ConsumetSearch(provider, query)), provider) == Returned(Some(hits))
    requires var w1 := SearchStep(up, w, provider, query).1;
      w2.cache == w1.cache && w1.clock <= w2.clock < w1.clock + SEARCH_CACHE_DURATION * 1000
    requires Lower(query2) == Lower(query)
    ensures SearchStep(up, w, provider, query).0 == Returned(hits)
    ensures SearchStep(up, w2, provider, query2) == (Returned(hits), w2)
  {
    var w1 := SearchStep(up, w, provider, query).1;
    SearchKeyShared(provider, query, query2);
    SaveThenRead(Sent(w, ConsumetSearch(provider, query)).cache, AnimeCache, SearchKey(provider, query),
                 SearchBundle(hits, provider), w1.clock, SEARCH_CACHE_DURATION, w2.clock);
  }

  /** An info lookup that found the anime is answered from the cache, sending nothing, for CACHE_DURATION seconds. */
  lemma InfoStepCaches(up: Upstream, w: World, provider: string, animeId: string, info: AnimeInfo, w2: World)
    requires Lookup(w.cache, AnimeCache, InfoKey(provider, animeId), w.clock).None?
    requires InfoOf(up(ConsumetInfo(provider, animeId)), provider) == Returned(Some(info))
    requires var w1 := InfoStep(up, w, provider, animeId).1;
      w2.cache == w1.cache && w1.clock <= w2.clock < w1.clock + CACHE_DURATION * 1000
    ensures InfoStep(up, w, provider, animeId).0 == Returned(Some(InfoDoc(info)))
    ensures InfoStep(up, w2, provider, animeId) == (Returned(Some(InfoDoc(info))), w2)
  {
    var w1 := InfoStep(up, w, provider, animeId).1;
    SaveThenRead(Sent(w, ConsumetInfo(provider, animeId)).cache, AnimeCache, InfoKey(provider, animeId),
                 InfoDoc(info), w1.clock, CACHE_DURATION, w2.clock);
  }

  /** Streaming links that were found are answered from the streaming table for EPISODE_CACHE_DURATION seconds. */
  lemma WatchStepCaches(up: Upstream, w: World, provider: string, episodeId: string, links: StreamingInfo, w2: World)
    requires Lookup(w.cache, StreamingCache, StreamKey(provider, episodeId), w.clock).None?
    requires WatchOf(up(ConsumetWatch(provider, episodeId)), provider) == Returned(Some(links))
    requires var w1 := WatchStep(up, w, provider, episodeId).1;
      w2.cache == w1.cache && w1.clock <= w2.clock < w1.clock + EPISODE_CACHE_DURATION * 1000
    ensures WatchStep(up, w, provider, episodeId).0 == Returned(Some(StreamDoc(links)))
    ensures WatchStep(up, w2, provider, episodeId) == (Returned(Some(StreamDoc(links))), w2)
  {
    var w1 := WatchStep(up, w, provider, episodeId).1;
    SaveThenRead(Sent(w, ConsumetWatch(provider, episodeId)).cache, StreamingCache, StreamKey(provider, episodeId),
                 StreamDoc(links), w1.clock, EPISODE_CACHE_DURATION, w2.clock);
  }

  // ---------------------------------------------------------------------------
  // The multi-provider search and the handlers
  // ---------------------------------------------------------------------------

  /**
   * `search_with_fallback`: an exception of the primary search propagates;
   * with at least MIN_RESULTS primary hits no backup is asked; otherwise
   * every backup is asked in order from the state the primary left. A
   * returned list has at most MAX_RESULTS hits with distinct title keys, and
   * starts with the primary hits when those have distinct keys and are at
   * most MAX_RESULTS.
   */
  lemma FallbackStepSpec(up: Upstream, w: World, query: string)
    ensures var r := FallbackStep(up, w, query).0;
      var (first, w1) := SearchStep(up, w, DEFAULT_PROVIDER, query);
      (first.Raised? ==> r.Raised?) &&
      (first.Returned? && |first.value| >= MIN_RESULTS ==>
        FallbackStep(up, w, query) == (Merged(first.value, []), w1)) &&
      (first.Returned? && |first.value| < MIN_RESULTS ==>
        var backups := BackupsStep(up, w1, BACKUP_PROVIDERS, query).0;
        Asked(backups) == BACKUP_PROVIDERS && r == Merged(first.value, backups)) &&
      (r.Returned? ==>
        |r.value| <= MAX_RESULTS && DistinctKeys(r.value, Key) &&
        (DistinctKeys(first.value, Key) && |first.value| <= MAX_RESULTS ==>
          |first.value| <= |r.value| && r.value[..|first.value|] == first.value))
  {
    var (first, w1) := SearchStep(up, w, DEFAULT_PROVIDER, query);
    if first.Returned? {
      var backups := if |first.value| < MIN_RESULTS then BackupsStep(up, w1, BACKUP_PROVIDERS, query).0 else [];
      if |first.value| < MIN_RESULTS {
        BackupOutcomes(up, w1, BACKUP_PROVIDERS, query);
      }
      FallbackResultSpec(first.value, backups);
      if DistinctKeys(first.value, Key) && |first.value| <= MAX_RESULTS {
        PrimaryHitsKept(first.value, backups);
      }
    }
  }

  /**
   * `api_search` answers one of three statuses: 400 "Query must be at least
   * 2 characters", sending nothing, exactly when the stripped query is
   * shorter than two characters; 500 "Search failed" exactly when the
   * multi-provider search raised; 200 exactly when the query is long enough
   * and that search returned.
   */
  lemma SearchReplyStatus(up: Upstream, w: World, q: Option<string>)
    ensures var (reply, w2) := SearchReply(up, w, q);
      var query := Trim(Python, q.GetOr(""));
      var merged := FallbackStep(up, w, query).0;
      (reply.Status() == 400 <==> |query| < 2) &&
      (|query| < 2 ==> reply == BadRequest("Query must be at least 2 characters") && w2 == w) &&
      (reply.Status() == 500 <==> |query| >= 2 && merged.Raised?) &&
      (reply.Status() == 500 ==> reply == ServerError("Search failed")) &&
      (reply.Ok? <==> |query| >= 2 && merged.Returned?)
  {
  }

  /**
   * The body of a 200 from `api_search`: the stripped query, a total that is
   * the number of results, and results that are the multi-provider hits
   * (at most MAX_RESULTS) when there are any and the Jikan hits otherwise.
   */
  lemma SearchReplySpec(up: Upstream, w: World, q: Option<string>)
    ensures var (reply, w2) := SearchReply(up, w, q);
      var query := Trim(Python, q.GetOr(""));
      var merged := FallbackStep(up, w, query).0;
      reply.Ok? ==>
        |query| >= 2 && merged.Returned? && reply.body.query == query &&
        reply.body.total == |reply.body.results| &&
        (merged.value != [] ==> reply.body.results == merged.value && |reply.body.results| <= MAX_RESULTS) &&
        (merged.value == [] ==>
          reply.body.results == JikanHits(up(JikanSearch(query))) &&
          forall i :: 0 <= i < |reply.body.results| ==> reply.body.results[i].provider == JIKAN_PROVIDER)
  {
    var query := Trim(Python, q.GetOr(""));
    if |query| >= 2 {
      FallbackStepSpec(up, w, query);
    }
  }

  /**
   * `api_anime_info` for a provider other than Jikan: 200 with the info
   * exactly when the cached or fetched lookup found it, 404 "Anime not
   * found" exactly when it found nothing, 500 exactly when it raised; a
   * cache hit sends nothing, a miss sends the one info request.
   */
  lemma AnimeInfoReplyConsumet(up: Upstream, w: World, provider: string, animeId: string)
    requires provider != JIKAN_PROVIDER
    ensures var (reply, w2) := AnimeInfoReply(up, w, provider, animeId);
      var info := InfoStep(up, w, provider, animeId).0;
      (forall doc :: reply == Ok(doc) <==> info == Returned(Some(doc))) &&
      (reply == NotFound("Anime not found") <==> info == Returned(None)) &&
      (reply == ServerError("Failed to fetch anime info") <==> info.Raised?) &&
      (Lookup(w.cache, AnimeCache, InfoKey(provider, animeId), w.clock).Some? ==> w2 == w) &&
      (Lookup(w.cache, AnimeCache, InfoKey(provider, animeId), w.clock).None? ==>
        w2.sent == w.sent + [Dispatch(ConsumetInfo(provider, animeId), w2.clock)])
  {
  }

  /**
   * `api_anime_info` for Jikan: never cached, one request always sent; 200
   * with the normalised record when the body has a `data` member, 404 when
   * there was no body or no such member, 500 when normalising raised.
   */
  lemma AnimeInfoReplyJikan(up: Upstream, w: World, animeId: string)
    ensures var (reply, w2) := AnimeInfoReply(up, w, JIKAN_PROVIDER, animeId);
      var data := up(JikanAnime(animeId));
      w2 == Sent(w, JikanAnime(animeId)) &&
      (forall info :: reply == Ok(InfoDoc(info)) <==> JikanAnimeOf(data) == Returned(Some(info))) &&
      (reply.Ok? ==> reply.body.InfoDoc? && reply.body.info.provider == JIKAN_PROVIDER) &&
      (reply == NotFound("Anime not found") <==> JikanAnimeOf(data) == Returned(None)) &&
      (reply == ServerError("Failed to fetch anime info") <==> JikanAnimeOf(data).Raised?)
  {
  }

  /**
   * `api_watch_episode` over the corrected streaming operation: 200 with the
   * links exactly when found, 404 "Episode not found" when the upstream gave
   * no usable body, 500 when the body was a value that is not an object.
   */
  lemma WatchReplySpec(up: Upstream, w: World, provider: string, episodeId: string)
    ensures var (reply, w2) := WatchReply(up, w, provider, episodeId);
      var links := WatchStep(up, w, provider, episodeId).0;
      (forall doc :: reply == Ok(doc) <==> links == Returned(Some(doc))) &&
      (reply == NotFound("Episode not found") <==> links == Returned(None)) &&
      (reply == ServerError("Failed to fetch streaming links") <==> links.Raised?) &&
      (Lookup(w.cache, StreamingCache, StreamKey(provider, episodeId), w.clock).None? ==>
        var data := up(ConsumetWatch(provider, episodeId));
        (reply.Status() == 404 <==> data.None? || !Truthy(data.value)) &&
        (reply.Status() == 500 <==> data.Some? && Truthy(data.value) && !data.value.JObj?))
  {
  }
}
