# AnimeVerse: a Dafny model of the search, cache and rate-limiting core

AnimeVerse has two parts: a Flask backend (`backend/app.py`) and a browser client (`src/app.js`).

The backend:
- relays anime searches, details and streaming links from an upstream provider API;
- falls back to backup providers, then to the Jikan database;
- keeps the answers in SQLite cache tables with an expiry instant;
- paces its upstream requests with a global rate limiter;
- keeps a watchlist table.

The client:
- calls the backend through `apiRequest`, which answers from an in-memory cache while an entry is fresh;
- paces requests with a sliding-window limiter of three per second;
- turns search replies into cards;
- chooses a stream source;
- keeps an in-memory watchlist.

The model is split into these modules.

| file | module | what it holds |
|---|---|---|
| `common.dfy` | `Common` | `Option`, `Outcome` (returned or raised), JSON values, member lookup |
| `text.dfy` | `Text` | Python `strip` and JavaScript `trim`, ASCII `lower`, year extraction, decimal text |
| `pyjson.dfy` | `PyJson` | Python's operations on parsed JSON (`get`, `in`, subscription, iteration, `len`, `str`, `split`), each raising where Python does; list building |
| `providers.dfy` | `Providers` | the records and the normalizers of search, info, watch and Jikan responses |
| `cache_store.dfy` | `CacheStore` | the cache tables as a map from (table, key) to row, and the read and write of a row |
| `fallback.dfy` | `Fallback` | de-duplication by title key and the result of the multi-provider search |
| `backend.dfy` | `Backend` | the backend's state (`World`) and each operation as a function of it; class `Server`, whose methods are proved equal to those functions |
| `backend_laws.dfy` | `BackendLaws` | rate limiting and what is sent, caching, the backup loop, and the handlers' replies |
| `findings.dfy` | `Findings` | the cache queries as written against the columns the tables really have |
| `watchlist_table.dfy` | `WatchlistTable` | class `Watchlist`: the `user_watchlist` rows, add and delete |
| `client_values.dfy` | `ClientValues` | JavaScript truthiness, the card mapping, the placeholder hash, source choice |
| `rate_limiter.dfy` | `RateLimiter` | `rateLimitDelay` as written, and the corrected limiter with its window invariant |
| `client.dfy` | `Client` | class `AppState`: response cache, rate queue, watchlist and the request paths |

Time is one integer clock in milliseconds. Waiting advances it.

The upstream APIs are given as data:
- Backend side: a deterministic function from request to parsed body, or `None` when the request failed. A body is any JSON value. A key may be missing, so its default applies, or present with any value, `null` included. Where Python refuses an operation on the value it meets, the model ends in `Raised`, and the handlers turn that into their 500 replies.
- Client side: a function from URL to what `fetch` yields. The time the backend takes to answer is a parameter (`took`).

Every request either side sends is appended to a log (`sent` for the backend, `dispatched` for the client). This lets contracts say "nothing was sent" and "no window of a second saw four requests".

## Model

| member | source | states |
|---|---|---|
| Common.Member | backend/app.py:183-190 | a JSON object member is found exactly when some member has the key; the value is that of the last member with it |
| Common.Take | backend/app.py:290 | `s[:n]`: a prefix of length `min(n, len(s))` |
| Text.TrimSpec | backend/app.py:329 | Trim (`strip`, `trim`) removes a whitespace prefix and suffix and leaves no outer whitespace; the result is empty exactly when the text is all whitespace |
| Text.Lower | backend/app.py:285 | same length, no upper-case letter left, every character kept or lowered |
| Text.LowerIdempotent | backend/app.py:170 | lowering a lowered key changes nothing |
| Text.BeforeFirst | backend/app.py:222 | `split('-')[0]`: the longest prefix without the separator, followed by it or by the end |
| Text.IntToDecimal | backend/app.py:304 | `str(n)`: decimal digits, with a minus sign exactly for negatives |
| Text.NatToDecimal | backend/app.py:304 | the decimal text of a natural number: digits only, non-empty, no leading zero |
| Text.ParseNatToDecimal | backend/app.py:304 | reading back the decimal text of a natural number gives the number |
| Text.IntToDecimalInjective | backend/app.py:304 | two integers with the same decimal text are equal |
| PyJson.Keys | backend/app.py:181 | iterating a dict yields exactly the keys present, each once; a non-empty dict yields at least one |
| PyJson.Get | backend/app.py:183-190 | `dict.get` raises exactly on a value that is not an object; otherwise the present value, `null` included, or else the default |
| PyJson.Contains | backend/app.py:178 | `in` raises exactly on `null`, numbers and booleans; on an object it is key membership |
| PyJson.Index | backend/app.py:181 | `v[key]` succeeds exactly on an object holding the key, and gives that member's value |
| PyJson.Elements | backend/app.py:181 | iteration raises exactly on `null`, numbers and booleans; a list gives its items, a dict or a string gives strings; nothing exactly for a false value |
| PyJson.Len | backend/app.py:220 | `len` raises exactly on `null`, numbers and booleans; a list gives its length; zero exactly for a false value |
| PyJson.Str | backend/app.py:190 | `str` and f-strings: a string unchanged, an integer in decimal, `None` for `null` |
| PyJson.YearOf | backend/app.py:222 | the default for a false value; raises exactly for a true value that is not a string; otherwise the text before the first `-` |
| PyJson.ListOfSpec | backend/app.py:180-192 | a built list exists exactly when every element maps; then it has one result per element, in order |
| PyJson.BuildList | backend/app.py:180-192 | the `results.append` loop computes that list, or stops at the first exception |
| Providers.NormalizeSearchItem | backend/app.py:182-191 | raises exactly for an element that is not an object; `title` and `english_title` are both the `title` value; `id`, `image`, `releaseDate` default to `''` and `status` to `Unknown`, a present `null` kept; the asked provider and the URL `/anime/{provider}/{str(id)}` |
| Providers.NormalizeSearchPageSpec | backend/app.py:180-192 | NormalizeSearchPage maps every element in order and raises exactly when some element is not an object |
| Providers.SearchPageOf | backend/app.py:175-192 | no page (`None`) for a missing or false body or an object without `results`; raises for a true number or boolean and for `results: null`; a `results` list gives its normalized page; a page comes only from an object |
| Providers.NormalizeInfo | backend/app.py:214-229 | raises exactly for a non-object, an `episodes` value `len` refuses, or a true non-string `releaseDate`; `episodes` is the length of `episodes_list`; `year` per YearOf with `Unknown`; every other key's value or default |
| Providers.InfoOf | backend/app.py:212-232 | nothing exactly for a missing or false body; otherwise the info record, raising exactly when it does |
| Providers.NormalizeWatch | backend/app.py:248-254 | raises exactly for a non-object; sources and subtitles default to `[]`, intro and outro to `{}`, present values kept; the provider |
| Providers.WatchOf | backend/app.py:246-257 | nothing exactly for a missing or false body; raises exactly for a true body that is not an object; otherwise the streaming record |
| Providers.JikanImage | backend/app.py:307 | the chained `get` raises exactly when the item, its `images` or their `jpg` is not an object; otherwise the `large_image_url` or `''` |
| Providers.JikanYear | backend/app.py:308 | raises exactly when the item or its `aired` is not an object or YearOf raises on `from`; otherwise YearOf of `from` |
| Providers.JikanSearchItem | backend/app.py:303-312 | raises exactly when the item is not an object or the image or year lookup raises; provider `jikan`, `id` is `str(mal_id)`, URL `/anime/jikan/{id}`, the year, image, titles and status |
| Providers.GenreNamesSpec | backend/app.py:365 | GenreNames maps exactly when every genre is an object, each to its `name` or `''`, in order |
| Providers.JikanInfo | backend/app.py:360-375 | raises for a non-object, a `genres` value that cannot be iterated or holds a non-object, or a raising image or year lookup; provider `jikan`, an empty episode list, `episodes` and `totalEpisodes` both the `episodes` value (default 0), `id` the `str` of `mal_id`, the genre names, the year and the image of their lookups, and `title`, `title_english`, `synopsis` (default `''`), `score` (default 0), `status` and `type` (default `Unknown`) as present, `null` kept |
| Providers.JikanSearchPageSpec | backend/app.py:302-313 | the Jikan page maps every element in order, each a `jikan` hit, and raises exactly when one element does |
| Providers.JikanHits | backend/app.py:293-318 | no hits for a missing or false body; every hit is a `jikan` hit |
| Providers.JikanHitsOutcome | backend/app.py:300-313 | the body of the `try` in `search_jikan_fallback`: every hit it returns is a `jikan` hit |
| Providers.JikanHitsOfList | backend/app.py:300-316 | a `data` list gives its mapped page, or `[]` when mapping raises |
| Providers.JikanHitsWithoutList | backend/app.py:293-318 | any other body, a truthy one without `data` included, gives no hits |
| Providers.JikanAnimeOf | backend/app.py:358-376 | nothing for a missing or false body or an object without `data`; otherwise JikanInfo of `data`, raising exactly when it does; a record comes only from an object |
| Providers.JikanUrlsDistinguishIds | backend/app.py:304-311 | two Jikan hits with integer `mal_id`s and the same URL have the same `mal_id` |
| CacheStore.Lookup | backend/app.py:112-125 | a read hits exactly when the row exists, has not expired (`expires_at > now`) and its text parses; the hit is that document |
| CacheStore.Store | backend/app.py:127-134 | the row of the key holds the document, the provider column and the expiry `now + duration`; every other row is unchanged |
| CacheStore.SaveThenRead | backend/app.py:127-134 | a read before `now + duration` returns the document just saved |
| CacheStore.ReadAfterExpiry | backend/app.py:116 | a read at or after the expiry instant misses |
| CacheStore.SecondSaveReplaces | backend/app.py:131-134 | a second save to a key replaces the first entirely (`INSERT OR REPLACE`) |
| CacheStore.SaveLeavesOtherKeys | backend/app.py:131-134 | a save changes no other (table, key) |
| Fallback.TitleKeySpec | backend/app.py:285 | TitleKey (and Key, for a hit with a string title) is the lower-cased title without surrounding whitespace, with no upper-case letter |
| Fallback.Asked | backend/app.py:272 | the providers asked, in the order they were asked |
| Fallback.SuccessesAppend | backend/app.py:272-279 | Successes: a backup that raised adds nothing to the accumulation; one that answered appends its hits |
| Fallback.CollectedAppend | backend/app.py:272-276 | after each backup, `all_results` is the primary hits followed by the hits of every backup that answered |
| Fallback.Deduplicate | backend/app.py:282-288 | the `seen_titles` loop raises exactly when some collected hit lacks a key (a title that is not a string); otherwise it computes the first-occurrence de-duplication Dedup |
| Fallback.MergeCollected | backend/app.py:282-290 | de-duplicating and cutting what was collected ends as Merged: the fallback result, or an exception at a non-string title |
| Fallback.DedupKeys | backend/app.py:282-288 | Dedup (and Unique) keep every title key that occurs |
| Fallback.DedupDistinct | backend/app.py:282-288 | no two kept results share a title key |
| Fallback.KeptIndices | backend/app.py:282-288 | the kept results are an order-preserving subsequence, holding exactly the first result of each key |
| Fallback.DedupOfDistinct | backend/app.py:282-288 | a list whose keys are already distinct is kept whole |
| Fallback.DistinctKeysCount | backend/app.py:282-288 | a list with distinct keys has as many keys as elements |
| Fallback.DedupSamePrefix | backend/app.py:282-288 | de-duplicating a prefix depends only on that prefix |
| Fallback.DedupGrows | backend/app.py:282-288 | de-duplicating a longer prefix extends the shorter result |
| Fallback.FallbackResultSpec | backend/app.py:282-290 | FallbackResult: at most 20 results, distinct title keys, a prefix of the de-duplicated accumulation, and every key when there are at most 20 |
| Fallback.PrimaryHitsKept | backend/app.py:266-290 | distinct primary hits, at most 20 of them, lead the result unchanged |
| Backend.SearchKeyShared | backend/app.py:170 | SearchKey: two searches of one provider share a cache row exactly when their queries agree once lower-cased |
| Backend.ChainNext | backend/app.py:272-279 | the loop over one more provider is the earlier turns, then that provider's turn in the state they left |
| Backend.Server.constructor | backend/app.py:58 | a fresh process: `last_request_time = 0`, nothing sent |
| Backend.Server.Sleep | backend/app.py:276 | `time.sleep` advances the clock by its argument |
| Backend.Server.RateLimit | backend/app.py:137-143 | waits until 500 ms after the previous request, then records the current time |
| Backend.Server.Send | backend/app.py:146-165 | the request leaves at the limiter's time (Sent), at least 500 ms after the one before it |
| Backend.Server.GetFromCache | backend/app.py:112-125 | the read of the cache as CacheStore.Lookup |
| Backend.Server.SaveToCache | backend/app.py:127-134 | the write of the cache as CacheStore.Store |
| Backend.Server.SearchAnimeConsumet | backend/app.py:168-200 | the outcome and new state are SearchStep's: a live row answers its hits with nothing sent; otherwise one search is sent, a page is normalized, returned and cached for 1800 s, no page gives `[]`, and an exception propagates |
| Backend.Server.GetAnimeInfoConsumet | backend/app.py:202-234 | as InfoStep: a live row answers, else one request; a true body is normalized, returned and cached for 3600 s; a missing or false body gives `None`; exceptions propagate |
| Backend.Server.GetEpisodeStreamingLinks | backend/app.py:236-259 | as WatchStep: the same on the streaming table keyed `stream_{provider}_{episode}`, cached for 1800 s |
| Backend.Server.SearchWithFallback | backend/app.py:261-290 | as FallbackStep: the primary's exception propagates; with fewer than 10 primary hits the backups are asked; the result is Merged |
| Backend.Server.AskBackups | backend/app.py:272-279 | as BackupsStep: every provider of the list in order, each in the state the previous left; the collected list is the primary hits and those of every backup that answered |
| Backend.Server.TryBackup | backend/app.py:273-279 | as TryStep: one provider search, its exception caught, then a 500 ms pause when it answered |
| Backend.Server.SearchJikanFallback | backend/app.py:293-318 | as JikanSearchStep: one Jikan request, and JikanHits of its body |
| Backend.Server.ApiSearch | backend/app.py:326-348 | as SearchReply (see BackendLaws.SearchReplyStatus and BackendLaws.SearchReplySpec) |
| Backend.Server.ApiAnimeInfo | backend/app.py:350-385 | as AnimeInfoReply (see BackendLaws.AnimeInfoReplyConsumet and BackendLaws.AnimeInfoReplyJikan) |
| Backend.Server.ApiWatch | backend/app.py:387-398 | as WatchReply, over the corrected streaming operation (see BackendLaws.WatchReplySpec) |
| BackendLaws.ChainTurns | backend/app.py:272-279 | a loop over keys has one turn per key, each the step at the state the earlier turns left |
| BackendLaws.BackupOutcomes | backend/app.py:272-279 | every backup provider is asked once, in order; each outcome is that provider's search with its exception caught, started in the state the earlier ones left |
| BackendLaws.SentAdvances | backend/app.py:137-165 | a request leaves at least 500 ms after the previous one and no earlier than now, and is logged last |
| BackendLaws.SearchStepAdvances | backend/app.py:168-200 | a provider search sends at most its own request and keeps the spacing |
| BackendLaws.TryStepAdvances | backend/app.py:273-276 | the same for a backup turn |
| BackendLaws.BackupsStepAdvances | backend/app.py:272-279 | the backup loop sends at most one search per provider, each for the query, spaced |
| BackendLaws.FallbackStepAdvances | backend/app.py:261-290 | the multi-provider search sends at most four searches for the query, at the default or a backup provider |
| BackendLaws.SearchReplyAdvances | backend/app.py:326-348 | a search request keeps the spacing and sends at most five requests, all searches for the stripped query |
| BackendLaws.SearchStepCaches | backend/app.py:168-196 | a stored search answers the same hits with nothing sent to any search of that provider for the query up to case, for 1800 s |
| BackendLaws.InfoStepCaches | backend/app.py:202-231 | a found info record is answered from the cache with nothing sent for 3600 s |
| BackendLaws.WatchStepCaches | backend/app.py:236-256 | found streaming links are answered from the streaming table for 1800 s |
| BackendLaws.FallbackStepSpec | backend/app.py:261-290 | the primary's exception propagates; 10 or more primary hits ask no backup; fewer ask the three backups in order from the state the primary left; a result has at most 20 hits with distinct keys, led by distinct primary hits |
| BackendLaws.SearchReplyStatus | backend/app.py:326-348 | 400 (with nothing sent) exactly when the stripped query is shorter than 2; 500 "Search failed" exactly when the multi-provider search raised; 200 exactly when the query is long enough and that search returned |
| BackendLaws.SearchReplySpec | backend/app.py:330-345 | a 200 carries the stripped query and `total` the number of results, which are the merged hits (at most 20) when there are any, else the Jikan hits |
| BackendLaws.AnimeInfoReplyConsumet | backend/app.py:377-385 | not Jikan: 200 with a document exactly when the lookup found it, 404 exactly when it found nothing, 500 exactly when it raised; a live row sends nothing, a miss sends the info request |
| BackendLaws.AnimeInfoReplyJikan | backend/app.py:354-385 | Jikan: one request and no cache; 200 with a `jikan` record exactly when JikanAnimeOf gives one, 404 exactly when it gives nothing, 500 exactly when it raises |
| BackendLaws.WatchReplySpec | backend/app.py:387-398 | 200 with the links exactly when found, 404 exactly when nothing was found, 500 exactly when the operation raised; on a miss, 404 for a missing or false body and 500 for a true non-object body |
| Findings.GetFromCacheAsWritten | backend/app.py:112-125 | the `SELECT` raises exactly when the table lacks a column it names; otherwise it reads as Lookup |
| Findings.SaveToCacheAsWritten | backend/app.py:127-134 | the `INSERT` raises exactly when the table lacks a column it names; otherwise it writes as Store |
| Findings.AnimeCacheQueriesWork | backend/app.py:64-72 | on `anime_cache` the queries as written behave as Lookup and Store |
| Findings.StreamingQueriesRaise | backend/app.py:86-94 | on `streaming_cache`, which has no `id` column, both queries raise |
| Findings.ApiWatchAsWritten | backend/app.py:236-259 | the watch handler over the queries as written, on a given schema, equals WatchReplyAsWritten |
| Findings.WatchAsWrittenAgrees | backend/app.py:387-398 | on a streaming table with every column the queries name, the handler as written is the corrected one |
| Findings.WatchAlwaysFails | backend/app.py:387-398 | with the tables as created, every `/api/watch` answers 500 "Failed to fetch streaming links", sending and storing nothing |
| Findings.WatchFindingWitness | backend/app.py:116 | an episode the upstream knows: 500 as written, 200 with the links when corrected |
| WatchlistTable.Bind | backend/app.py:491-497 | `None`, booleans, 64-bit integers and strings bind as parameters; a wider integer, a list or a dict does not |
| WatchlistTable.TextAffinity | backend/app.py:99 | a TEXT column stores an integer as its decimal text and keeps other values |
| WatchlistTable.IntegerAffinity | backend/app.py:103 | an INTEGER column converts only non-empty digit text, to a natural number, and stores every other value unchanged |
| WatchlistTable.IntegerAffinityReadsDecimal | backend/app.py:103 | the decimal text of a natural number is stored as that number |
| WatchlistTable.Prepare | backend/app.py:479-501 | 500 "Internal server error" exactly for a body `in` cannot search; 400 exactly when a required field is missing; an insert exactly for an object whose five values bind, and the insert holds each bound value under its column's affinity: `anime_id`, `title`, `image` and `status` (default `watching`) as TEXT, `total_episodes` (default 0) as INTEGER |
| WatchlistTable.WideIdRefused | backend/app.py:487-501 | an `anime_id` outside 64 bits answers 500 "Failed to add to watchlist" |
| WatchlistTable.AppendKeepsIds | backend/app.py:98 | a row appended with the next AUTOINCREMENT identifier keeps the identifiers increasing |
| WatchlistTable.Without | backend/app.py:508 | the DELETE keeps exactly the rows whose `anime_id` differs from the path text |
| WatchlistTable.WithoutShrinks | backend/app.py:508-512 | the DELETE removes something exactly when some row carries that id |
| WatchlistTable.WithoutKeepsIds | backend/app.py:508 | the DELETE keeps the identifiers increasing |
| WatchlistTable.WithoutAppend | backend/app.py:508 | a DELETE over a table with one more row at its end treats the earlier rows as before |
| WatchlistTable.Watchlist.constructor | backend/app.py:96-107 | an empty table whose first identifier is 1 |
| WatchlistTable.Watchlist.Add | backend/app.py:476-501 | a refused body leaves the table as it was; otherwise exactly one row is appended, never replacing, with a new identifier, episode 1 and the current time |
| WatchlistTable.Watchlist.Remove | backend/app.py:503-515 | every row with that `anime_id` is removed; 200 exactly when one existed, 404 otherwise |
| WatchlistTable.PathFor | backend/app.py:508 | the path text that matches a stored text id; there is none exactly when the id is NULL |
| WatchlistTable.AddThenRemove | backend/app.py:487-512 | deleting by the added id removes the new row with all older rows of that id; a row added with a null id survives every delete |
| WatchlistTable.NumericIdStoredAsText | backend/app.py:99 | a numeric `anime_id` is stored as its decimal text, so the path spelling that number deletes it |
| WatchlistTable.AddTwiceKeepsBoth | backend/app.py:487-490 | adding the same body twice leaves two rows that one DELETE removes together |
| ClientValues.Or | src/app.js:257 | `a \|\| b` is truthy exactly when one of them is, and is one of them |
| ClientValues.Field | src/app.js:256-268 | a property is defined only on an object |
| ClientValues.ToInt32 | src/app.js:678-679 | the 32-bit wrap is in range and congruent to its argument modulo 2^32 |
| ClientValues.ToInt32Congruent | src/app.js:678-679 | wrapping ignores multiples of 2^32 |
| ClientValues.StepCongruent | src/app.js:678-679 | HashStep from the int32 of a Polynomial value is the int32 of the next Polynomial value |
| ClientValues.HashIsPolynomial | src/app.js:677-680 | Hash, the shift-and-add fold, equals the wrapped Polynomial `sum code * 31^k` |
| ClientValues.ColorIndex | src/app.js:677-681 | the colour index is the absolute value of the int32-wrapped base-31 polynomial of the title, modulo 7 |
| ClientValues.PlaceholderImage | src/app.js:675-683 | the URL is the base, the colour at ColorIndex of the title, and at most the first 20 characters of the title |
| ClientValues.CardOf | src/app.js:258-271 | mapping an item throws exactly for `null`, or for a falsy image with a title that is not a string |
| ClientValues.CardDefaults | src/app.js:255-269 | for `provider`, `type`, `releaseDate` and `url`: the item's value exactly when it is truthy, otherwise `AppState.provider`, `Anime`, `Unknown` and `#`; `englishTitle` is a truthy `english_title`, otherwise the title; `image` is a truthy `image`, otherwise the placeholder of the (string) title; `id`, `title` and `episodes` are copied; `score` is `N/A`, `synopsis` and `rating` empty, `genres` empty; provider, type, year, image and url are always truthy |
| ClientValues.MapCards | src/app.js:255-271 | one card per item, in order, throwing exactly when one item throws |
| ClientValues.ProcessApiData | src/app.js:255-271 | throws unless the argument is an array; otherwise as MapCards |
| ClientValues.PropertyOrEmpty | src/app.js:534 | `(data && data[key]) \|\| []`: the member exactly when the reply and that member are truthy, otherwise the empty array |
| ClientValues.ResultsOf | src/app.js:254 | `(data && data.results) \|\| []`: the `results` member exactly when the reply and that member are truthy, otherwise the empty array |
| ClientValues.FallbackData | src/app.js:276-292 | one demo card: id the clock's decimal text, title quoting the query, `englishTitle` `Demo Result`, provider `AppState.provider`, type `TV`, 12 episodes, year `2024`, score `8.5`, the demo synopsis, genres `[Demo]`, rating `PG-13`, the placeholder image of the query, url `#` |
| ClientValues.FindFirst | src/app.js:542-543 | `find`: the first element that passes, none when none does, and a throw at the first `null` before it |
| ClientValues.QualityNamesHlsSpec | src/app.js:543 | QualityNamesHls holds exactly for an object whose `quality` is text containing `m3u8` in any case |
| ClientValues.LengthOf | src/app.js:536 | `v.length`: the size of an array or a string, the `length` member of an object, `undefined` on a number, boolean or `null` |
| ClientValues.PlaySource | src/app.js:534-544 | with `sources = (data && data.sources) \|\| []`: "No streaming sources found" exactly when `sources.length` is falsy; a truthy length on anything but an array (a non-empty string, an object with a `length`) throws at `sources.find`; on a non-empty array, throws exactly when `ChooseSource` does and otherwise plays its choice, which is one of the sources |
| ClientValues.ChooseSource | src/app.js:542-544 | a chosen source is one of the sources and not `null`; an unflagged choice means no source is flagged |
| ClientValues.ChooseSourceThrows | src/app.js:542-544 | the choice throws exactly when a `null` source precedes every flagged one |
| ClientValues.ChooseSourceFlagged | src/app.js:542 | the first source flagged `isM3U8` is played when no `null` precedes it |
| ClientValues.ChooseSourceByQuality | src/app.js:543 | with no flagged and no `null` source, the first whose quality names m3u8 is played |
| ClientValues.ChooseSourceDefault | src/app.js:544 | with no `null` source and none naming HLS either way, the first source is played |
| RateLimiter.Recent | src/app.js:217 | the filter keeps no more timestamps than it had |
| RateLimiter.RecentIsFilter | src/app.js:217 | a timestamp is kept exactly when it is less than 1000 ms old |
| RateLimiter.RecentOfSorted | src/app.js:217 | on a sorted queue the kept timestamps are a suffix: exactly those inside the window |
| RateLimiter.DelayBounds | src/app.js:219-221 | Delay is in `[0, 1000]`, and positive exactly when 3 or more timestamps remain in the window |
| RateLimiter.RateLimitAsWritten | src/app.js:215-225 | the queue as written always ends with the instant of the call |
| RateLimiter.AsWrittenQueue | src/app.js:217-224 | the queue as written drops every timestamp at least 1000 ms old, keeps the others and appends `now` |
| RateLimiter.RunAsWritten | src/app.js:215-225 | one dispatch instant per call |
| RateLimiter.AsWrittenFirstSteps | src/app.js:215-225 | at one instant, three calls pass at once and the fourth waits 1000 ms but is queued at the call instant |
| RateLimiter.AsWrittenLaterSteps | src/app.js:215-225 | 1000 ms later every queued timestamp has left the window and nobody waits |
| RateLimiter.RunStep | src/app.js:215-225 | a run is its first call followed by the run from the new queue |
| RateLimiter.AsWrittenFromFourth | src/app.js:215-225 | from the fourth call on, four requests leave at `t + 1000` |
| RateLimiter.AsWrittenRun | src/app.js:215-225 | the dispatch instants of the counterexample run |
| RateLimiter.AsWrittenLetsFourThrough | src/app.js:215-225 | calls made one after the other let four requests through within one window |
| RateLimiter.SpacingKept | src/app.js:219-224 | a request that leaves after the code's wait keeps the history sorted and at most 3 per 1000 ms |
| RateLimiter.LimiterStep | src/app.js:215-225 | one corrected step keeps the limiter valid against the dispatch history |
| RateLimiter.StepFromSplit | src/app.js:215-225 | the same step, once the queue is split at the window's edge |
| RateLimiter.QueueSplit | src/app.js:217 | the filtered queue is the history from some index on, exactly the instants inside the window |
| RateLimiter.Extended | src/app.js:224 | appending the dispatch instant keeps the queue the tail of the history |
| RateLimiter.FirstFrom | src/app.js:217 | the first index at or after `from` whose instant is at least `t` |
| RateLimiter.WindowCount | src/app.js:215-225 | a spaced history holds at most 3 dispatches in any window of 1000 ms |
| Client.Fresh | src/app.js:178-181 | a cached response is used exactly when it is less than 30000 ms old |
| Client.Settle | src/app.js:186-212 | a request that went out: "Request timeout" exactly when the answer takes 10000 ms or more; otherwise a network error exactly when unreachable, `HTTP {status}` exactly for a status outside 200-299, a parse failure exactly for a 2xx body that is not JSON, and the body exactly for a 2xx JSON body |
| Client.ResponseCached | src/app.js:178-181 | a stored response answers its URL for the next 30000 ms, whatever the backend would answer |
| Client.RepeatServedFromCache | src/app.js:178-205 | after a request that resolved, the same request within 30000 ms of its arrival sends nothing and settles the same, whatever the backend now answers |
| Client.SearchCards | src/app.js:251-274 | the mapped results of a settled reply, or exactly one demo card when the request failed or the mapping threw |
| Client.IndexOfId | src/app.js:637 | `findIndex`: the first entry whose id is `===`, or -1 exactly when there is none |
| Client.CountIdAppend | src/app.js:643 | CountId of a concatenation is the sum of the parts' counts |
| Client.CountIdNone | src/app.js:637 | a list where no entry matches counts zero entries with the id |
| Client.CountIdRemove | src/app.js:640 | removing a matching entry lowers the count of that id by one |
| Client.CountIdAppendOne | src/app.js:643 | pushing an anime adds one to its id's count when its id is `===` to itself |
| Client.ToggleChangesByOne | src/app.js:636-649 | Toggled removes one matching entry (length and count go down by one) or appends the anime |
| Client.ToggleTwiceRestores | src/app.js:636-649 | toggling an absent anime twice gives the list back |
| Client.AppState.constructor | src/app.js:5-16 | empty cache and rate queue, the stored watchlist |
| Client.AppState.RateLimitDelay | src/app.js:215-225 | the code's wait and filter; the queued instant is the one the request leaves at; no window of 1000 ms ever holds more than 3 dispatches |
| Client.AppState.ApiRequest | src/app.js:176-213 | settles as Response. A fresh cached response is used and no state changes. Otherwise the request passes the corrected limiter of RateLimitDelay: it is queued and logged at its departure instant, and the clock moves to that instant plus the answer time, cut at 10000 ms. A resolved response is cached under the full URL with that arrival instant; a rejection caches nothing |
| Client.AppState.SearchAnime | src/app.js:251-274 | the cards are SearchCards of how the request for `/search?q={query}` settles, the demo card stamped with the settled clock; the clock, cache, queue and log end as after ApiRequest |
| Client.AppState.PerformSearch | src/app.js:228-249 | a warning and no state change exactly when the trimmed query is shorter than 2; otherwise the listed cards and the new state are those of SearchAnime for the trimmed query |
| Client.AppState.FindIndexById | src/app.js:637 | the loop finds the first index whose id is `===`, as IndexOfId |
| Client.AppState.ToggleWatchlist | src/app.js:636-649 | the watchlist becomes the toggled list; the anime was added exactly when it was absent |

## Left out

- HTTP transport is not modelled: `requests.get`, `fetch`, headers, status handling and `AbortController`. The backend's upstream is a function to an optional parsed body. The client's backend is a function from URL to status and body, and the time it takes is the parameter `took`.
- URL encoding is not modelled (`quote`, `encodeURIComponent`). Requests are identified by their unencoded arguments.
- Expiry uses one integer clock. SQLite's `datetime('now')` is compared as text against Python's local ISO timestamp, and that comparison is not modelled.
- Threads and concurrent async calls are not modelled; every operation runs to completion before the next one. The unused `cache_db_lock` is left out with them.
- Floating-point JSON numbers are not modelled, since JSON numbers are integers here. So are the float seconds of `rate_limit`, which become milliseconds.
- Text.Lower lowers ASCII letters only, while Python's `lower` and JavaScript's `toLowerCase` lower all of Unicode.
- JavaScript strings are sequences of characters, not UTF-16 code units. So the placeholder hash and `substring(0, 20)` agree with the source only where each character is one code unit.
- The trending, recent-episodes and health endpoints, the index and static routes, CORS headers, the error handlers and `run_app` are Flask plumbing with no decision logic. They are not modelled.
- `GET /api/watchlist` is not modelled: its order among rows added in the same second is unspecified by SQLite.
- Request bodies that are not JSON (`get_json` failing) are not modelled. The watchlist body is a parsed JSON value.
- WatchlistTable.IntegerAffinity: converts only digit-only text. SQLite also converts signed, space-padded and real-valued integer text.
- WatchlistTable.Watchlist.Add: `INSERT OR REPLACE` with no UNIQUE column on `anime_id` always appends. The model follows the code, not the upsert a reader of the statement might expect.
- RateLimiter.Recent: its own contract bounds only the length; which timestamps are kept is stated by RateLimiter.RecentIsFilter and RateLimiter.RecentOfSorted.
- PyJson.Str: the text of a list or a dict follows Python's `repr` only roughly. Strings are always single-quoted and unescaped, and a dict with a repeated key is printed with every occurrence. Only the `str` of a string, an integer, a boolean and `null` is exact.
- The SQLite calls themselves are not modelled as raising (a locked or unwritable database file). Only the errors the code's own queries and values cause are modelled.
- ClientValues.QualityNamesHls: covers string qualities only. A non-string `quality` (an array that `test` would join) counts as not naming m3u8.
- ClientValues.ChooseSource: requires a non-empty list of sources; `PlaySource` calls it only for a non-empty `sources` array, and models the other `sources` values (falsy length, or a truthy length on a non-array, which throws at `sources.find` and is caught at src/app.js:583-585). The rest of `playEpisode` (the loading indicator, the player and the modal) is DOM code.
- The DOM and UI are not modelled: rendering, toasts, the loading overlay, the player, `showAnimeDetails`, and `localStorage` persistence of the watchlist.
- The backend's `make_request` logging is not modelled, and neither is the client's `console.error`.

## Findings

| source | as written | input that shows it | evidently intended | confidence | as-written member | corrected member |
|---|---|---|---|---|---|---|
| backend/app.py:116 | `get_from_cache` and `save_to_cache` always name an `id` column, but `streaming_cache` is keyed by `episode_id` (backend/app.py:87-94) | any `GET /api/watch/gogoanime/ep-1`: the SELECT raises "no such column", and the handler answers 500 | streaming rows read and written by their own key, so `/api/watch` answers the links or 404 | high, not executed | Findings.WatchFindingWitness | Backend.Server.ApiWatch |
| src/app.js:224 | `rateLimitDelay` queues `now`, the instant the call began, even after waiting `delay` | calls at t, t, t, t, t+1000, t+1000, t+1000, each after the previous request left: the fourth request leaves at t+1000 but is queued as t, so four requests leave at t+1000 | queue the instant the request leaves (`now + delay`), so no window of 1000 ms holds more than 3 requests | high, not executed | RateLimiter.AsWrittenLetsFourThrough | Client.AppState.RateLimitDelay |
