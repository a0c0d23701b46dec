/**
 * The browser client's state (src/app.js): the response cache and the
 * sliding-window rate limiter of `apiRequest`, the search entry points and
 * the in-memory watchlist.
 *
 * `Date.now()` is the field `clock`, in milliseconds; awaiting a timer
 * advances it. The backend is a deterministic function from URL to what the
 * `fetch` of that URL yields.
 */
module Client {
  import opened Common
  import opened Text
  import opened ClientValues
  import opened RateLimiter

  /** `ApiConfig.baseUrl`. */
  const API_BASE := "/api"
  /** `ApiConfig.timeout`: how long a cached response stays fresh. */
  const FRESH_MS := 30000
  /** `ApiConfig.retries`: when the request is aborted. */
  const ABORT_MS := 10000

  /*
   * The response cache of apiRequest (src/app.js:176-213)
   */

  /** A cached response and the instant it was stored. */
  datatype Entry = Entry(data: Json, timestamp: int)

  /** The cached response for `url` while it is fresh at `now`. */
  function Fresh(cache: map<string, Entry>, url: string, now: int): (r: Option<Json>)
    ensures r.Some? <==> url in cache && now - cache[url].timestamp < FRESH_MS
    ensures r.Some? ==> r.value == cache[url].data
  {
    if url in cache && now - cache[url].timestamp < FRESH_MS then Some(cache[url].data) else None
  }

  /** What `fetch(url)` yields: a response with its status and body, or a network error. */
  datatype Fetched = Answer(status: int, body: Option<Json>) | Unreachable

  /** Why `apiRequest` rejected. */
  datatype Failure = Timeout | HttpError(status: int) | NetworkError | NotJson {
    /** The message of the thrown error, where the code chooses it. */
    function Message(): string
      requires Timeout? || HttpError?
    {
      if Timeout? then "Request timeout" else "HTTP " + IntToDecimal(status)
    }
  }

  /** How a promise settled. */
  datatype Settled<+T> = Resolved(value: T) | Rejected(failure: Failure)

  /**
   * How a request that went out settles when the backend's answer takes
   * `took` milliseconds: aborted as a timeout once ABORT_MS have passed,
   * otherwise a network error, an HTTP error for a status outside 200-299,
   * a failure to parse a body that is not JSON, or the parsed body.
   */
  function Settle(response: Fetched, took: nat): (r: Settled<Json>)
    ensures r == Rejected(Timeout) <==> took >= ABORT_MS
    ensures r == Rejected(NetworkError) <==> took < ABORT_MS && response.Unreachable?
    ensures (r.Rejected? && r.failure.HttpError?) <==>
      took < ABORT_MS && response.Answer? && !(200 <= response.status <= 299)
    ensures r.Rejected? && r.failure.HttpError? ==> r.failure.status == response.status
    ensures r == Rejected(NotJson) <==>
      took < ABORT_MS && response.Answer? && 200 <= response.status <= 299 && response.body.None?
    ensures r.Resolved? <==>
      took < ABORT_MS && response.Answer? && 200 <= response.status <= 299 && response.body.Some?
    ensures r.Resolved? ==> response.body == Some(r.value)
  {
    if took >= ABORT_MS then Rejected(Timeout)
    else if response.Unreachable? then Rejected(NetworkError)
    else if !(200 <= response.status <= 299) then Rejected(HttpError(response.status))
    else if response.body.None? then Rejected(NotJson)
    else Resolved(response.body.value)
  }

  /**
   * What `apiRequest` settles with for `url`, started at `now` with the
   * response cache `cache`: the cached response while it is fresh, and
   * otherwise the backend's answer.
   */
  function Response(backend: string -> Fetched, cache: map<string, Entry>, now: int, url: string, took: nat)
    : Settled<Json>
  {
    var cached := Fresh(cache, url, now);
    if cached.Some? then Resolved(cached.value) else Settle(backend(url), took)
  }

  /**
   * A response that was stored answers every request for its URL for the
   * next FRESH_MS milliseconds, whatever the backend would now answer.
   */
  lemma ResponseCached(backend: string -> Fetched, cache: map<string, Entry>, url: string, data: Json,
                     stored: int, now: int, took: nat)
    requires stored <= now < stored + FRESH_MS
    ensures Response(backend, cache[url := Entry(data, stored)], now, url, took) == Resolved(data)
  {
    assert Fresh(cache[url := Entry(data, stored)], url, now) == Some(data);
  }

  /** Whether `apiRequest` for `url` at `now` sends a request: no fresh response is cached. */
  predicate Sends(cache: map<string, Entry>, url: string, now: int) {
    Fresh(cache, url, now).None?
  }

  /**
   * The instant a request made at `now` leaves: after the wait of
   * `rateLimitDelay` on the queue `queue`.
   */
  function Departure(queue: seq<int>, now: int): int {
    now + Delay(Recent(queue, now), now)
  }

  /**
   * The clock once `apiRequest` settled: unchanged on a cache hit;
   * otherwise the departure instant plus the backend's answer time, cut
   * short at ABORT_MS by the abort.
   */
  function SettledAt(cache: map<string, Entry>, queue: seq<int>, now: int, url: string, took: nat): (t: int)
    ensures !Sends(cache, url, now) ==> t == now
    ensures Sends(cache, url, now) ==> Departure(queue, now) <= t <= Departure(queue, now) + ABORT_MS
  {
    if Sends(cache, url, now) then Departure(queue, now) + Min(took, ABORT_MS) else now
  }

  /**
   * The response cache once `apiRequest` settled: on a request that
   * resolved, the response is stored under the URL with the instant it
   * arrived; otherwise the cache is unchanged.
   */
  function CacheAfter(backend: string -> Fetched, cache: map<string, Entry>, queue: seq<int>, now: int,
                      url: string, took: nat): (c: map<string, Entry>)
    ensures !Sends(cache, url, now) ==> c == cache
    ensures Sends(cache, url, now) && Settle(backend(url), took).Resolved? ==>
      c == cache[url := Entry(Settle(backend(url), took).value, SettledAt(cache, queue, now, url, took))]
    ensures Sends(cache, url, now) && Settle(backend(url), took).Rejected? ==> c == cache
  {
    if Sends(cache, url, now) && Settle(backend(url), took).Resolved?
    then cache[url := Entry(Settle(backend(url), took).value, SettledAt(cache, queue, now, url, took))]
    else cache
  }

  /** The rate queue once `apiRequest` settled: the request that left is queued at its departure. */
  function QueueAfter(cache: map<string, Entry>, queue: seq<int>, now: int, url: string): (q: seq<int>)
    ensures !Sends(cache, url, now) ==> q == queue
    ensures Sends(cache, url, now) ==> q == Recent(queue, now) + [Departure(queue, now)]
  {
    if Sends(cache, url, now) then Recent(queue, now) + [Departure(queue, now)] else queue
  }

  /**
   * A request that resolved is answered from the cache, whatever the
   * backend would answer, by the same request made less than FRESH_MS after
   * it settled.
   */
  lemma RepeatServedFromCache(backend: string -> Fetched, cache: map<string, Entry>, queue: seq<int>, now: int,
                              url: string, took: nat, backend2: string -> Fetched, later: int, took2: nat)
    requires Sends(cache, url, now) && Settle(backend(url), took).Resolved?
    requires SettledAt(cache, queue, now, url, took) <= later < SettledAt(cache, queue, now, url, took) + FRESH_MS
    ensures var cache2 := CacheAfter(backend, cache, queue, now, url, took);
      !Sends(cache2, url, later) &&
      Response(backend2, cache2, later, url, took2) == Response(backend, cache, now, url, took)
  {
    ResponseCached(backend2, cache, url, Settle(backend(url), took).value,
                   SettledAt(cache, queue, now, url, took), later, took2);
  }

  /**
   * The cards `searchAnime` returns once its request settled as `reply`:
   * the mapped results of the reply, or the demo result (stamped `now`)
   * when the request failed or the mapping threw.
   */
  function SearchCards(reply: Settled<Json>, query: string, now: int): (cards: seq<Card>)
    ensures reply.Resolved? && ProcessApiData(ResultsOf(reply.value)).Returned? ==>
      cards == ProcessApiData(ResultsOf(reply.value)).value
    ensures !(reply.Resolved? && ProcessApiData(ResultsOf(reply.value)).Returned?) ==>
      cards == FallbackData(query, now) && |cards| == 1
  {
    if reply.Resolved? && ProcessApiData(ResultsOf(reply.value)).Returned?
    then ProcessApiData(ResultsOf(reply.value)).value
    else FallbackData(query, now)
  }

  /** The endpoint `searchAnime(query)` requests. */
  function SearchEndpoint(query: string): string {
    "/search?q=" + query
  }

  /** What the search box leads to. */
  datatype SearchView = Warned(message: string) | Listed(results: seq<Card>)

  /*
   * The watchlist (src/app.js:636-649)
   */

  /** A watchlist entry: its `id` and its other properties. */
  datatype Anime = Anime(id: JsValue, rest: seq<(string, Json)>)

  /**
   * `a === b` for two property values. Objects and arrays are never
   * identical here: the toggled anime is rebuilt from its JSON text, so it
   * shares no object with the list.
   */
  predicate StrictEquals(a: JsValue, b: JsValue) {
    a == b && (a.Some? ==> !a.value.JArr? && !a.value.JObj?)
  }

  /** `list.findIndex(w => w.id === id)`. */
  function IndexOfId(list: seq<Anime>, id: JsValue): (r: int)
    ensures -1 <= r < |list|
    ensures r >= 0 ==> StrictEquals(list[r].id, id) && forall j :: 0 <= j < r ==> !StrictEquals(list[j].id, id)
    ensures r == -1 <==> forall j :: 0 <= j < |list| ==> !StrictEquals(list[j].id, id)
  {
    if list == [] then -1
    else if StrictEquals(list[0].id, id) then 0
    else
      var k := IndexOfId(list[1..], id);
      if k == -1 then -1 else k + 1
  }

  /** The list after `toggleWatchlist(anime)`: its first entry with that id removed, or the anime appended. */
  function Toggled(list: seq<Anime>, anime: Anime): seq<Anime> {
    var i := IndexOfId(list, anime.id);
    if i >= 0 then list[..i] + list[i + 1..] else list + [anime]
  }

  /** The number of entries whose id is `id` under `===`. */
  function CountId(list: seq<Anime>, id: JsValue): nat {
    if list == [] then 0
    else (if StrictEquals(list[|list| - 1].id, id) then 1 else 0) + CountId(list[..|list| - 1], id)
  }

  lemma {:induction false} CountIdAppend(a: seq<Anime>, b: seq<Anime>, id: JsValue)
    ensures CountId(a + b, id) == CountId(a, id) + CountId(b, id)
    decreases |b|
  {
    if b != [] {
      var last := b[|b| - 1];
      var ab := a + b;
      CountIdAppend(a, b[..|b| - 1], id);
      assert ab[..|ab| - 1] == a + b[..|b| - 1];
      assert ab[|ab| - 1] == last;
      assert CountId(ab, id) == (if StrictEquals(last.id, id) then 1 else 0) + CountId(a + b[..|b| - 1], id);
      assert CountId(b, id) == (if StrictEquals(last.id, id) then 1 else 0) + CountId(b[..|b| - 1], id);
    } else {
      assert a + b == a;
    }
  }

  lemma {:induction false} CountIdNone(list: seq<Anime>, id: JsValue)
    requires forall j :: 0 <= j < |list| ==> !StrictEquals(list[j].id, id)
    ensures CountId(list, id) == 0
  {
    if list != [] {
      CountIdNone(list[..|list| - 1], id);
    }
  }

  /**
   * A toggle removes one entry with the anime's id when there is one and
   * appends the anime otherwise; the length changes by exactly one, and the
   * entries with the id go down or up by one.
   */
  lemma ToggleChangesByOne(list: seq<Anime>, anime: Anime)
    ensures IndexOfId(list, anime.id) >= 0 ==>
      |Toggled(list, anime)| == |list| - 1 &&
      CountId(Toggled(list, anime), anime.id) == CountId(list, anime.id) - 1
    ensures IndexOfId(list, anime.id) == -1 ==>
      Toggled(list, anime) == list + [anime] &&
      CountId(Toggled(list, anime), anime.id) ==
        CountId(list, anime.id) + (if StrictEquals(anime.id, anime.id) then 1 else 0)
  {
    var i := IndexOfId(list, anime.id);
    if i >= 0 {
      CountIdRemove(list, i, anime.id);
    } else {
      CountIdAppendOne(list, anime);
    }
  }

  lemma CountIdAppendOne(list: seq<Anime>, anime: Anime)
    ensures CountId(list + [anime], anime.id) ==
      CountId(list, anime.id) + (if StrictEquals(anime.id, anime.id) then 1 else 0)
  {
    assert (list + [anime])[..|list|] == list;
  }

  lemma CountIdRemove(list: seq<Anime>, i: nat, id: JsValue)
    requires i < |list| && StrictEquals(list[i].id, id)
    ensures CountId(list[..i] + list[i + 1..], id) == CountId(list, id) - 1
  {
    var pre := list[..i];
    var post := list[i + 1..];
    assert list == (pre + [list[i]]) + post;
    CountIdAppend(pre + [list[i]], post, id);
    CountIdAppend(pre, [list[i]], id);
    CountIdAppend(pre, post, id);
    assert CountId([list[i]], id) == 1 + CountId([], id);
  }

  /** Toggling an anime that is not in the list twice gives the list back. */
  lemma ToggleTwiceRestores(list: seq<Anime>, anime: Anime)
    requires IndexOfId(list, anime.id) == -1
    requires StrictEquals(anime.id, anime.id)
    ensures Toggled(Toggled(list, anime), anime) == list
  {
    var once := list + [anime];
    assert Toggled(list, anime) == once;
    assert once[|list|] == anime;
    assert IndexOfId(once, anime.id) == |list|;
    assert once[..|list|] == list;
  }

  class AppState {
    /** What `fetch` yields for each URL. */
    const backend: string -> Fetched
    /** `Date.now()`. */
    var clock: int
    /** `AppState.cache`: responses by full URL. */
    var cache: map<string, Entry>
    /** `AppState.rateQueue`. */
    var rateQueue: seq<int>
    /** `AppState.watchlist`. */
    var watchlist: seq<Anime>
    /** The instants at which requests have left, in order. */
    ghost var dispatched: seq<int>
    /** How many of the oldest dispatches have been filtered out of the queue. */
    ghost var dropped: nat

    /**
     * The rate limiter is valid against the history of dispatches.
     */
    ghost predicate Valid()
      reads this
    {
      LimiterValid(dispatched, dropped, rateQueue, clock)
    }

    /** A page load: empty cache and queue, the watchlist read back from storage. */
    constructor (backend: string -> Fetched, watchlist: seq<Anime>, start: int)
      ensures Valid()
      ensures this.backend == backend && this.watchlist == watchlist && clock == start
      ensures cache == map[] && rateQueue == [] && dispatched == []
    {
      this.backend := backend;
      this.watchlist := watchlist;
      clock := start;
      cache := map[];
      rateQueue := [];
      dispatched := [];
      dropped := 0;
    }

    /**
     * `rateLimitDelay`, corrected: wait as the code does, then queue the
     * instant the request actually leaves. The wait and the new queue are
     * those of the code except for that one timestamp, and no window of
     * WINDOW_MS ever holds more than RATE_LIMIT requests.
     */
    method RateLimitDelay() returns (delay: int)
      requires Valid()
      modifies this`clock, this`rateQueue, this`dispatched, this`dropped
      ensures Valid()
      ensures delay == RateLimitAsWritten(old(rateQueue), old(clock)).0
      ensures clock == Departure(old(rateQueue), old(clock))
      ensures 0 <= delay <= WINDOW_MS && clock == old(clock) + delay
      ensures rateQueue == Recent(old(rateQueue), old(clock)) + [clock]
      ensures dispatched == old(dispatched) + [clock]
    {
      var now := clock;
      var recent := Recent(rateQueue, now);
      delay := Delay(recent, now);
      var departure := now + delay;
      ghost var m := LimiterStep(dispatched, dropped, rateQueue, now, recent, delay);
      ghost var history := dispatched + [departure];
      clock, rateQueue := departure, recent + [departure];
      dispatched, dropped := history, dropped + m;
    }

    /**
     * `apiRequest(endpoint)`, the backend taking `took` milliseconds to
     * answer. A response stored less than FRESH_MS ago is answered from the
     * cache without a request; otherwise the request waits for the rate
     * limiter (RateLimitDelay, which queues the instant the request leaves)
     * and is sent, and a successful JSON response is cached under the full
     * URL with the instant it arrived.
     */
    method ApiRequest(endpoint: string, took: nat) returns (r: Settled<Json>)
      requires Valid()
      modifies this`clock, this`cache, this`rateQueue, this`dispatched, this`dropped
      ensures Valid()
      ensures var url := API_BASE + endpoint;
        r == Response(backend, old(cache), old(clock), url, took) &&
        clock == SettledAt(old(cache), old(rateQueue), old(clock), url, took) &&
        cache == CacheAfter(backend, old(cache), old(rateQueue), old(clock), url, took) &&
        rateQueue == QueueAfter(old(cache), old(rateQueue), old(clock), url) &&
        dispatched == old(dispatched) +
          (if Sends(old(cache), url, old(clock)) then [Departure(old(rateQueue), old(clock))] else [])
    {
      var url := API_BASE + endpoint;
      var cached := Fresh(cache, url, clock);
      if cached.Some? {
        return Resolved(cached.value);
      }
      var _ := RateLimitDelay();
      if took >= ABORT_MS {
        clock := clock + ABORT_MS;
        return Rejected(Timeout);
      }
      clock := clock + took;
      var response := backend(url);
      if response.Unreachable? {
        return Rejected(NetworkError);
      }
      if !(200 <= response.status <= 299) {
        return Rejected(HttpError(response.status));
      }
      if response.body.None? {
        return Rejected(NotJson);
      }
      cache := cache[url := Entry(response.body.value, clock)];
      return Resolved(response.body.value);
    }

    /**
     * `searchAnime(query)`: the mapped results of the search reply, or the
     * demo result when the request or the mapping throws. The request
     * leaves the state as ApiRequest does.
     */
    method SearchAnime(query: string, took: nat) returns (results: seq<Card>)
      requires Valid()
      modifies this`clock, this`cache, this`rateQueue, this`dispatched, this`dropped
      ensures Valid()
      ensures var url := API_BASE + SearchEndpoint(query);
        clock == SettledAt(old(cache), old(rateQueue), old(clock), url, took) &&
        cache == CacheAfter(backend, old(cache), old(rateQueue), old(clock), url, took) &&
        rateQueue == QueueAfter(old(cache), old(rateQueue), old(clock), url) &&
        dispatched == old(dispatched) +
          (if Sends(old(cache), url, old(clock)) then [Departure(old(rateQueue), old(clock))] else []) &&
        results == SearchCards(Response(backend, old(cache), old(clock), url, took), query, clock)
    {
      var settled := ApiRequest(SearchEndpoint(query), took);
      if settled.Rejected? {
        return FallbackData(query, clock);
      }
      var mapped := ProcessApiData(ResultsOf(settled.value));
      if mapped.Raised? {
        return FallbackData(query, clock);
      }
      results := mapped.value;
    }

    /**
     * `performSearch` on the search box's value (`None` when the box is
     * missing): a query shorter than two characters once trimmed gets a
     * warning and no request; any other is searched for, and the cards
     * `searchAnime` returns are listed.
     */
    method PerformSearch(input: Option<string>, took: nat) returns (view: SearchView)
      requires Valid()
      modifies this`clock, this`cache, this`rateQueue, this`dispatched, this`dropped
      ensures Valid()
      ensures view.Warned? <==> |Trim(JavaScript, input.GetOr(""))| < 2
      ensures view.Warned? ==> (view.message == "Enter at least 2 characters" &&
        dispatched == old(dispatched) && cache == old(cache) && clock == old(clock) && rateQueue == old(rateQueue))
      ensures view.Listed? ==>
        var url := API_BASE + SearchEndpoint(Trim(JavaScript, input.GetOr("")));
        clock == SettledAt(old(cache), old(rateQueue), old(clock), url, took) &&
        cache == CacheAfter(backend, old(cache), old(rateQueue), old(clock), url, took) &&
        rateQueue == QueueAfter(old(cache), old(rateQueue), old(clock), url) &&
        dispatched == old(dispatched) +
          (if Sends(old(cache), url, old(clock)) then [Departure(old(rateQueue), old(clock))] else []) &&
        view.results == SearchCards(Response(backend, old(cache), old(clock), url, took),
                                    Trim(JavaScript, input.GetOr("")), clock)
    {
      var query := Trim(JavaScript, input.GetOr(""));
      if |query| < 2 {
        return Warned("Enter at least 2 characters");
      }
      var results := SearchAnime(query, took);
      return Listed(results);
    }

    /**
     * `findIndex` over the watchlist: the first entry whose id is `id`
     * under `===`, or -1.
     */
    method FindIndexById(id: JsValue) returns (index: int)
      ensures index == IndexOfId(watchlist, id)
    {
      var i := 0;
      while i < |watchlist|
        invariant 0 <= i <= |watchlist|
        invariant forall j :: 0 <= j < i ==> !StrictEquals(watchlist[j].id, id)
      {
        if StrictEquals(watchlist[i].id, id) {
          return i;
        }
        i := i + 1;
      }
      return -1;
    }

    /** `toggleWatchlist(anime)`: `splice` out the first entry with its id, or `push` it. */
    method ToggleWatchlist(anime: Anime) returns (added: bool)
      modifies this`watchlist
      ensures watchlist == Toggled(old(watchlist), anime)
      ensures added <==> IndexOfId(old(watchlist), anime.id) == -1
    {
      var index := FindIndexById(anime.id);
      if index > -1 {
        watchlist := watchlist[..index] + watchlist[index + 1..];
        added := false;
      } else {
        watchlist := watchlist + [anime];
        added := true;
      }
    }
  }
}
