/**
 * The records the backend builds from upstream JSON (backend/app.py).
 * An upstream response is any parsed JSON value: every key may be missing
 * (then the default applies) or present with any value, `null` included
 * (then that value is kept). Where Python refuses an operation on the value
 * it meets (`get` on a non-object, `len(None)`, `split` on a number, ...)
 * the normalizer ends in `Raised`.
 */
module Providers {
  import opened Common
  import opened Text
  import opened PyJson

  const DEFAULT_PROVIDER := "gogoanime"
  const BACKUP_PROVIDERS: seq<string> := ["zoro", "9anime", "animepahe"]
  const JIKAN_PROVIDER := "jikan"

  // ---------------------------------------------------------------------------
  // Canonical records
  // ---------------------------------------------------------------------------


  /** One search hit; `url` is the backend's detail path for it. */
  datatype SearchResult = SearchResult(
    id: Json, title: Json, englishTitle: Json, image: Json,
    releaseDate: Json, status: Json, provider: string, url: string)

  /** Detailed information about one anime; `kind` is the `type` key. */
  datatype AnimeInfo = AnimeInfo(
    id: Json, title: Json, englishTitle: Json, synopsis: Json,
    genres: Json, episodes: Json, totalEpisodes: Json, year: string,
    score: Json, image: Json, status: Json, kind: Json,
    episodesList: Json, provider: string)

  /** The stream sources of one episode. */
  datatype StreamingInfo = StreamingInfo(
    sources: Json, subtitles: Json, intro: Json, outro: Json, provider: string)

  /** The detail path `/anime/{provider}/{id}` of a search hit. */
  function DetailUrl(provider: string, id: string): string {
    "/anime/" + provider + "/" + id
  }

  /** `d.get(key, default)` on an object: the present value, `null` included, or `default`. */
  function Field(d: Json, key: string, default: Json): Json
    requires d.JObj?
  {
    Member(d.members, key).GetOr(default)
  }

  // ---------------------------------------------------------------------------
  // Normalizers for the primary API (backend/app.py:181-191, 214-229, 248-254)
  // ---------------------------------------------------------------------------

  /** The hit one element of a search response's `results` becomes. */
  function NormalizeSearchItem(item: Json, provider: string): (r: Outcome<SearchResult>)
    ensures r.Raised? <==> !item.JObj?
    ensures r.Returned? ==> r.value.provider == provider && r.value.url == DetailUrl(provider, Str(r.value.id))
    ensures r.Returned? ==> r.value.title == r.value.englishTitle == Field(item, "title", JStr(""))
    ensures r.Returned? ==> (r.value.id == Field(item, "id", JStr("")) &&
      r.value.image == Field(item, "image", JStr("")) &&
      r.value.releaseDate == Field(item, "releaseDate", JStr("")) &&
      r.value.status == Field(item, "status", JStr("Unknown")))
  {
    if !item.JObj? then Raised
    else
      var id := Field(item, "id", JStr(""));
      var title := Field(item, "title", JStr(""));
      Returned(SearchResult(id, title, title, Field(item, "image", JStr("")),
                            Field(item, "releaseDate", JStr("")), Field(item, "status", JStr("Unknown")),
                            provider, DetailUrl(provider, Str(id))))
  }

  /** NormalizeSearchItem for one provider, as a function value. */
  function SearchItemOf(provider: string): Json -> Outcome<SearchResult> {
    item => NormalizeSearchItem(item, provider)
  }

  /**
   * What the loop over a search response's `results` produces: every element
   * normalized in order, or an exception at the first element that is not an
   * object.
   */
  function NormalizeSearchPage(items: seq<Json>, provider: string): Outcome<seq<SearchResult>> {
    ListOf(items, SearchItemOf(provider))
  }

  /** The normalized page keeps length and order, and fails exactly when some element is not an object. */
  lemma NormalizeSearchPageSpec(items: seq<Json>, provider: string)
    ensures NormalizeSearchPage(items, provider).Returned? <==>
      forall i :: 0 <= i < |items| ==> items[i].JObj?
    ensures NormalizeSearchPage(items, provider).Returned? ==>
      var rs := NormalizeSearchPage(items, provider).value;
      |rs| == |items| &&
      forall i :: 0 <= i < |items| ==> Returned(rs[i]) == NormalizeSearchItem(items[i], provider)
  {
    ListOfSpec(items, SearchItemOf(provider));
  }

  /**
   * `if data and 'results' in data:` and the loop over `data['results']`:
   * `None` when there is no response to read (the operation then answers
   * `[]` and stores nothing), the normalized hits otherwise.
   */
  function SearchPageOf(data: Option<Json>, provider: string): (r: Outcome<Option<seq<SearchResult>>>)
    ensures data.None? || !Truthy(data.value) ==> r == Returned(None)
    ensures data.Some? && Truthy(data.value) && (data.value.JNum? || data.value.JBool?) ==> r.Raised?
    ensures data.Some? && data.value.JObj? && Member(data.value.members, "results").None? ==> r == Returned(None)
    ensures data.Some? && data.value.JObj? && Member(data.value.members, "results") == Some(JNull) ==> r.Raised?
    ensures data.Some? && data.value.JObj? && Member(data.value.members, "results").Some? &&
            Member(data.value.members, "results").value.JArr? ==>
      var items := Member(data.value.members, "results").value.items;
      (r.Returned? <==> NormalizeSearchPage(items, provider).Returned?) &&
      (r.Returned? ==> r.value == Some(NormalizeSearchPage(items, provider).value))
    ensures r.Returned? && r.value.Some? ==> data.Some? && data.value.JObj?
  {
    if data.None? || !Truthy(data.value) then Returned(None)
    else
      var found :- Contains(data.value, "results");
      if !found then Returned(None)
      else
        var results :- Index(data.value, "results");
        var items :- Elements(results);
        var hits :- NormalizeSearchPage(items, provider);
        Returned(Some(hits))
  }

  /**
   * The info record built from a provider info response. It raises on a
   * response that is not an object, on an `episodes` value `len` refuses
   * (`null`, a number, a boolean), and on a true `releaseDate` that is not
   * a string.
   */
  function NormalizeInfo(d: Json, provider: string): (r: Outcome<AnimeInfo>)
    ensures r.Raised? <==> !d.JObj? || Len(Field(d, "episodes", JArr([]))).Raised? ||
                           YearOf(Field(d, "releaseDate", JNull), "Unknown").Raised?
    ensures r.Returned? ==> (r.value.provider == provider &&
      r.value.episodesList == Field(d, "episodes", JArr([])) &&
      r.value.episodes == JNum(Len(r.value.episodesList).value) &&
      Returned(r.value.year) == YearOf(Field(d, "releaseDate", JNull), "Unknown"))
    ensures r.Returned? ==> (r.value.title == r.value.englishTitle == Field(d, "title", JStr("")) &&
      r.value.id == Field(d, "id", JStr("")) &&
      r.value.synopsis == Field(d, "description", JStr("")) &&
      r.value.genres == Field(d, "genres", JArr([])) &&
      r.value.totalEpisodes == Field(d, "totalEpisodes", JNum(0)) &&
      r.value.score == Field(d, "rating", JNum(0)) &&
      r.value.image == Field(d, "image", JStr("")) &&
      r.value.status == Field(d, "status", JStr("Unknown")) &&
      r.value.kind == Field(d, "type", JStr("Unknown")))
  {
    if !d.JObj? then Raised
    else
      var title := Field(d, "title", JStr(""));
      var episodes := Field(d, "episodes", JArr([]));
      var count :- Len(episodes);
      var year :- YearOf(Field(d, "releaseDate", JNull), "Unknown");
      Returned(AnimeInfo(Field(d, "id", JStr("")), title, title, Field(d, "description", JStr("")),
                         Field(d, "genres", JArr([])), JNum(count), Field(d, "totalEpisodes", JNum(0)),
                         year, Field(d, "rating", JNum(0)), Field(d, "image", JStr("")),
                         Field(d, "status", JStr("Unknown")), Field(d, "type", JStr("Unknown")),
                         episodes, provider))
  }

  /**
   * `if data:` and the info record: `None` for a missing or false response,
   * the record otherwise.
   */
  function InfoOf(data: Option<Json>, provider: string): (r: Outcome<Option<AnimeInfo>>)
    ensures r == Returned(None) <==> data.None? || !Truthy(data.value)
    ensures data.Some? && Truthy(data.value) ==>
      (r.Raised? <==> NormalizeInfo(data.value, provider).Raised?) &&
      (r.Returned? ==> r.value == Some(NormalizeInfo(data.value, provider).value))
  {
    if data.None? || !Truthy(data.value) then Returned(None)
    else
      var info :- NormalizeInfo(data.value, provider);
      Returned(Some(info))
  }

  /**
   * The streaming record built from a provider watch response: the four
   * values verbatim, `null` included, or their defaults when absent. A
   * response that is not an object raises.
   */
  function NormalizeWatch(d: Json, provider: string): (r: Outcome<StreamingInfo>)
    ensures r.Raised? <==> !d.JObj?
    ensures r.Returned? ==> (r.value.provider == provider &&
      r.value.sources == Field(d, "sources", JArr([])) &&
      r.value.subtitles == Field(d, "subtitles", JArr([])) &&
      r.value.intro == Field(d, "intro", JObj([])) &&
      r.value.outro == Field(d, "outro", JObj([])))
  {
    if !d.JObj? then Raised
    else
      Returned(StreamingInfo(Field(d, "sources", JArr([])), Field(d, "subtitles", JArr([])),
                             Field(d, "intro", JObj([])), Field(d, "outro", JObj([])), provider))
  }

  /** `if data:` and the streaming record: `None` for a missing or false response. */
  function WatchOf(data: Option<Json>, provider: string): (r: Outcome<Option<StreamingInfo>>)
    ensures r == Returned(None) <==> data.None? || !Truthy(data.value)
    ensures r.Raised? <==> data.Some? && Truthy(data.value) && !data.value.JObj?
    ensures r.Returned? && r.value.Some? ==> Returned(r.value.value) == NormalizeWatch(data.value, provider)
  {
    if data.None? || !Truthy(data.value) then Returned(None)
    else
      var info :- NormalizeWatch(data.value, provider);
      Returned(Some(info))
  }

  // ---------------------------------------------------------------------------
  // Normalizers for the Jikan API (backend/app.py:302-313, 359-375)
  // ---------------------------------------------------------------------------

  /** `item.get('images', {}).get('jpg', {}).get('large_image_url', '')`. */
  function JikanImage(item: Json): (r: Outcome<Json>)
    ensures r.Raised? <==> (!item.JObj? ||
      !Field(item, "images", JObj([])).JObj? ||
      !Field(Field(item, "images", JObj([])), "jpg", JObj([])).JObj?)
    ensures r.Returned? ==>
      r.value == Field(Field(Field(item, "images", JObj([])), "jpg", JObj([])), "large_image_url", JStr(""))
  {
    var images :- Get(item, "images", JObj([]));
    var jpg :- Get(images, "jpg", JObj([]));
    Get(jpg, "large_image_url", JStr(""))
  }

  /**
   * `item.get('aired', {}).get('from', '').split('-')[0] if
   * item.get('aired', {}).get('from') else default`.
   */
  function JikanYear(item: Json, default: string): (r: Outcome<string>)
    ensures r.Raised? <==> (!item.JObj? || !Field(item, "aired", JObj([])).JObj? ||
      YearOf(Field(Field(item, "aired", JObj([])), "from", JNull), default).Raised?)
    ensures r.Returned? ==> r == YearOf(Field(Field(item, "aired", JObj([])), "from", JNull), default)
  {
    var aired :- Get(item, "aired", JObj([]));
    var start :- Get(aired, "from", JNull);
    YearOf(start, default)
  }

  /** The search hit one element of a Jikan search response's `data` becomes. */
  function JikanSearchItem(item: Json): (r: Outcome<SearchResult>)
    ensures r.Raised? <==> !item.JObj? || JikanImage(item).Raised? || JikanYear(item, "").Raised?
    ensures r.Returned? ==> r.value.provider == JIKAN_PROVIDER && r.value.url == DetailUrl(JIKAN_PROVIDER, Str(r.value.id))
    ensures r.Returned? ==> (r.value.id == JStr(Str(Field(item, "mal_id", JStr("")))) &&
      r.value.title == Field(item, "title", JStr("")) &&
      r.value.englishTitle == Field(item, "title_english", JStr("")) &&
      Returned(r.value.image) == JikanImage(item) &&
      r.value.releaseDate == JStr(JikanYear(item, "").value) &&
      r.value.status == Field(item, "status", JStr("Unknown")))
  {
    if !item.JObj? then Raised
    else
      var malId := Field(item, "mal_id", JStr(""));
      var image :- JikanImage(item);
      var year :- JikanYear(item, "");
      Returned(SearchResult(JStr(Str(malId)), Field(item, "title", JStr("")),
                            Field(item, "title_english", JStr("")), image, JStr(year),
                            Field(item, "status", JStr("Unknown")),
                            JIKAN_PROVIDER, DetailUrl(JIKAN_PROVIDER, Str(malId))))
  }

  /** `g.get('name', '')` for one genre. */
  function GenreName(g: Json): Outcome<Json> {
    Get(g, "name", JStr(""))
  }

  /** The names of `[g.get('name', '') for g in genres]`; an element that is not an object raises. */
  function GenreNames(genres: seq<Json>): Outcome<seq<Json>> {
    ListOf(genres, GenreName)
  }

  /** A genre list maps when every genre is an object, each to its name or `''`. */
  lemma GenreNamesSpec(genres: seq<Json>)
    ensures GenreNames(genres).Returned? <==> forall i :: 0 <= i < |genres| ==> genres[i].JObj?
    ensures GenreNames(genres).Returned? ==> (|GenreNames(genres).value| == |genres| &&
      forall i :: 0 <= i < |genres| ==> GenreNames(genres).value[i] == Field(genres[i], "name", JStr("")))
  {
    ListOfSpec(genres, GenreName);
  }

  /**
   * The info record built from a Jikan anime object. It raises on a value
   * that is not an object, on a `genres` value that cannot be iterated or
   * holds a non-object, and where the image or year lookups raise.
   */
  function JikanInfo(item: Json): (r: Outcome<AnimeInfo>)
    ensures !item.JObj? ==> r.Raised?
    ensures item.JObj? ==> (r.Raised? <==>
      Elements(Field(item, "genres", JArr([]))).Raised? ||
      GenreNames(Elements(Field(item, "genres", JArr([]))).value).Raised? ||
      JikanImage(item).Raised? || JikanYear(item, "Unknown").Raised?)
    ensures r.Returned? ==> (r.value.provider == JIKAN_PROVIDER && r.value.episodesList == JArr([]) &&
      r.value.episodes == r.value.totalEpisodes == Field(item, "episodes", JNum(0)) &&
      r.value.id == JStr(Str(Field(item, "mal_id", JStr("")))) &&
      r.value.genres == JArr(GenreNames(Elements(Field(item, "genres", JArr([]))).value).value) &&
      Returned(r.value.year) == JikanYear(item, "Unknown") && Returned(r.value.image) == JikanImage(item))
    ensures r.Returned? ==> (r.value.title == Field(item, "title", JStr("")) &&
      r.value.englishTitle == Field(item, "title_english", JStr("")) &&
      r.value.synopsis == Field(item, "synopsis", JStr("")) &&
      r.value.score == Field(item, "score", JNum(0)) &&
      r.value.status == Field(item, "status", JStr("Unknown")) &&
      r.value.kind == Field(item, "type", JStr("Unknown")))
  {
    if !item.JObj? then Raised
    else
      var genres :- Elements(Field(item, "genres", JArr([])));
      var names :- GenreNames(genres);
      var episodes := Field(item, "episodes", JNum(0));
      var year :- JikanYear(item, "Unknown");
      var image :- JikanImage(item);
      Returned(AnimeInfo(JStr(Str(Field(item, "mal_id", JStr("")))), Field(item, "title", JStr("")),
                         Field(item, "title_english", JStr("")), Field(item, "synopsis", JStr("")),
                         JArr(names), episodes, episodes, year, Field(item, "score", JNum(0)), image,
                         Field(item, "status", JStr("Unknown")), Field(item, "type", JStr("Unknown")),
                         JArr([]), JIKAN_PROVIDER))
  }

  /** What the loop of the Jikan search produces: every element mapped in order, or an exception. */
  function JikanSearchPage(items: seq<Json>): Outcome<seq<SearchResult>> {
    ListOf(items, JikanSearchItem)
  }

  /** The mapped page keeps length and order, every hit is a Jikan hit, and it fails exactly when some element fails. */
  lemma JikanSearchPageSpec(items: seq<Json>)
    ensures JikanSearchPage(items).Returned? <==>
      forall i :: 0 <= i < |items| ==> JikanSearchItem(items[i]).Returned?
    ensures JikanSearchPage(items).Returned? ==>
      var rs := JikanSearchPage(items).value;
      |rs| == |items| && (forall i :: 0 <= i < |items| ==> Returned(rs[i]) == JikanSearchItem(items[i])) &&
      forall i :: 0 <= i < |rs| ==> rs[i].provider == JIKAN_PROVIDER
  {
    ListOfSpec(items, JikanSearchItem);
  }

  /**
   * `search_jikan_fallback` after the request: the hits of a response whose
   * `data` can be mapped, and `[]` for anything else, an exception included.
   */
  function JikanHits(data: Option<Json>): (hits: seq<SearchResult>)
    ensures data.None? || !Truthy(data.value) ==> hits == []
    ensures forall i :: 0 <= i < |hits| ==> hits[i].provider == JIKAN_PROVIDER
  {
    match JikanHitsOutcome(data)
    case Raised => []
    case Returned(hits) => hits
  }

  /**
   * A response that is not an object whose `data` is a list gives no hits:
   * a missing `data` fails the guard, and any other value either raises or
   * iterates over strings, on which the item mapping raises.
   */
  lemma JikanHitsWithoutList(d: Json)
    requires !(d.JObj? && Member(d.members, "data").Some? && Member(d.members, "data").value.JArr?)
    ensures JikanHits(Some(d)) == []
  {
    if Truthy(d) && Contains(d, "data") == Returned(true) && Index(d, "data").Returned? {
      var list := Index(d, "data").value;
      var items := Elements(list);
      if items.Returned? && items.value != [] {
        ListOfSpec(items.value, JikanSearchItem);
        assert JikanSearchItem(items.value[0]).Raised?;
      }
    }
  }

  /** A response whose `data` is a list gives the mapping of that list, or `[]` when mapping raises. */
  lemma JikanHitsOfList(d: Json, items: seq<Json>)
    requires d.JObj? && Member(d.members, "data") == Some(JArr(items))
    ensures JikanHits(Some(d)) == match JikanSearchPage(items) case Returned(hits) => hits case Raised => []
  {
    assert Truthy(d);
    assert JikanHitsOutcome(Some(d)) == JikanSearchPage(items);
  }

  /** The part of `search_jikan_fallback` inside its `try`. */
  function JikanHitsOutcome(data: Option<Json>): (r: Outcome<seq<SearchResult>>)
    ensures r.Returned? ==> forall i :: 0 <= i < |r.value| ==> r.value[i].provider == JIKAN_PROVIDER
  {
    if data.None? || !Truthy(data.value) then Returned([])
    else
      var found :- Contains(data.value, "data");
      if !found then Returned([])
      else
        var list :- Index(data.value, "data");
        var items :- Elements(list);
        JikanSearchPageSpec(items);
        JikanSearchPage(items)
  }

  /**
   * The Jikan branch of `api_anime_info` after the request: `None` when the
   * response has no `data` (404), the record of its `data` object otherwise.
   */
  function JikanAnimeOf(data: Option<Json>): (r: Outcome<Option<AnimeInfo>>)
    ensures data.None? || !Truthy(data.value) ==> r == Returned(None)
    ensures data.Some? && data.value.JObj? && Member(data.value.members, "data").None? ==> r == Returned(None)
    ensures data.Some? && data.value.JObj? && Member(data.value.members, "data").Some? ==>
      var item := Member(data.value.members, "data").value;
      (r.Raised? <==> JikanInfo(item).Raised?) && (r.Returned? ==> r.value == Some(JikanInfo(item).value))
    ensures r.Returned? && r.value.Some? ==> data.Some? && data.value.JObj?
  {
    if data.None? || !Truthy(data.value) then Returned(None)
    else
      var found :- Contains(data.value, "data");
      if !found then Returned(None)
      else
        var item :- Index(data.value, "data");
        var info :- JikanInfo(item);
        Returned(Some(info))
  }

  /** Jikan ids are the decimal rendering of an integer `mal_id`, so distinct ids give distinct detail paths. */
  lemma JikanUrlsDistinguishIds(a: Json, b: Json)
    requires JikanSearchItem(a).Returned? && JikanSearchItem(b).Returned?
    requires Field(a, "mal_id", JStr("")).JNum? && Field(b, "mal_id", JStr("")).JNum?
    requires JikanSearchItem(a).value.url == JikanSearchItem(b).value.url
    ensures Field(a, "mal_id", JStr("")) == Field(b, "mal_id", JStr(""))
  {
    var p := "/anime/" + JIKAN_PROVIDER + "/";
    var m, n := Field(a, "mal_id", JStr("")).n, Field(b, "mal_id", JStr("")).n;
    assert JikanSearchItem(a).value.url == p + IntToDecimal(m);
    assert JikanSearchItem(b).value.url == p + IntToDecimal(n);
    assert IntToDecimal(m) == JikanSearchItem(a).value.url[|p|..];
    IntToDecimalInjective(m, n);
  }
}
