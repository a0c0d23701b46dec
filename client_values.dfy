/**
 * The pure part of the browser client (src/app.js): JavaScript's view of a
 * parsed reply, the result normalizer `processApiData` / `searchAnime`, the
 * placeholder image with its int32 hash, the demo result, and the choice of
 * a streaming source.
 *
 * A property read from a parsed reply is a `JsValue`: `None` is `undefined`
 * (the property is missing), `Some(j)` a JSON value.
 */
module ClientValues {
  import opened Common
  import opened Text
  import PyJson

  /** `AppState.provider`. */
  const DEFAULT_PROVIDER := "gogoanime"

  type JsValue = Option<Json>

  /** JavaScript truthiness; `undefined`, `null`, `false`, `0` and `""` are falsy. */
  predicate Truthy(v: JsValue) {
    match v
    case None => false
    case Some(JNull) => false
    case Some(JBool(b)) => b
    case Some(JNum(n)) => n != 0
    case Some(JStr(s)) => s != []
    case Some(_) => true
  }

  /** `a || b`: the first operand when it is truthy, the second otherwise. */
  function Or(a: JsValue, b: JsValue): (r: JsValue)
    ensures Truthy(r) <==> Truthy(a) || Truthy(b)
    ensures r == a || r == b
  {
    if Truthy(a) then a else b
  }

  /** `v.key` on a value that is not `null`: a member of an object, `undefined` on anything else. */
  function Field(v: Json, key: string): (r: JsValue)
    ensures r.Some? ==> v.JObj?
  {
    if v.JObj? then Member(v.members, key) else None
  }

  /** The record the client shows for one search hit. */
  datatype Card = Card(
    id: JsValue,
    provider: JsValue,
    title: JsValue,
    englishTitle: JsValue,
    kind: JsValue,          // the `type` property
    episodes: JsValue,
    year: JsValue,
    score: string,
    synopsis: string,
    genres: seq<string>,
    rating: string,
    image: JsValue,
    url: JsValue)

  /*
   * generatePlaceholderImage (src/app.js:675-683)
   */

  const COLORS: seq<string> := ["ff6b6b", "4ecdc4", "45b7d1", "96ceb4", "ffeaa7", "fd79a8", "fdcb6e"]
  const PLACEHOLDER_BASE := "https://via.placeholder.com/400x600/"

  const TWO_32 := 0x1_0000_0000
  const TWO_31 := 0x8000_0000

  /** JavaScript's ToInt32: the int32 congruent to `x` modulo 2^32. */
  function ToInt32(x: int): (r: int)
    ensures -TWO_31 <= r < TWO_31
    ensures (x - r) % TWO_32 == 0
  {
    (x + TWO_31) % TWO_32 - TWO_31
  }

  /** ToInt32 sees only the residue of its argument modulo 2^32. */
  lemma ToInt32Congruent(x: int, k: int)
    ensures ToInt32(x + k * TWO_32) == ToInt32(x)
  {
    var m := (x + TWO_31) % TWO_32;
    var q := (x + TWO_31) / TWO_32;
    assert x + TWO_31 + k * TWO_32 == (q + k) * TWO_32 + m;
    assert (x + k * TWO_32 + TWO_31) % TWO_32 == m;
  }

  /** One step of the fold: `a = ((a << 5) - a) + code; a = a & a`. */
  function HashStep(a: int, code: int): int {
    ToInt32(ToInt32(a * 32) - a + code)
  }

  /** The `reduce` over the characters of `title`, starting from 0. */
  function Hash(title: string): int {
    if title == [] then 0
    else HashStep(Hash(title[..|title| - 1]), title[|title| - 1] as int)
  }

  /** The hash computed without wrap-around: the base-31 polynomial of the character codes. */
  function Polynomial(title: string): int {
    if title == [] then 0
    else 31 * Polynomial(title[..|title| - 1]) + title[|title| - 1] as int
  }

  /** A step of the fold from the int32 of `p` is the int32 of the polynomial step from `p`. */
  lemma StepCongruent(h: int, p: int, c: int)
    requires h == ToInt32(p)
    ensures HashStep(h, c) == ToInt32(31 * p + c)
  {
    var j := (h - p) / TWO_32;
    assert h == p + j * TWO_32;
    var s := ToInt32(h * 32);
    var j2 := (s - h * 32) / TWO_32;
    assert s == h * 32 + j2 * TWO_32;
    assert s - h + c == 31 * p + c + (31 * j + j2) * TWO_32;
    ToInt32Congruent(31 * p + c, 31 * j + j2);
  }

  /** The wrapping fold is the polynomial hash taken modulo 2^32 as an int32. */
  lemma {:induction false} HashIsPolynomial(title: string)
    ensures Hash(title) == ToInt32(Polynomial(title))
  {
    if title != [] {
      var init := title[..|title| - 1];
      HashIsPolynomial(init);
      StepCongruent(Hash(init), Polynomial(init), title[|title| - 1] as int);
    }
  }

  /**
   * `Math.abs(hash) % colors.length`: the absolute value of the wrapped
   * base-31 polynomial of the title, modulo the number of colours.
   */
  function ColorIndex(title: string): (k: nat)
    ensures k < |COLORS|
    ensures k == (var p := ToInt32(Polynomial(title)); if p < 0 then -p else p) % |COLORS|
  {
    HashIsPolynomial(title);
    var h := Hash(title);
    (if h < 0 then -h else h) % |COLORS|
  }

  /** The placeholder URL: a colour picked by the hash and the first 20 characters of the title. */
  function PlaceholderImage(title: string): (r: string)
    ensures r == PLACEHOLDER_BASE + COLORS[ColorIndex(title)] + "/ffffff?text=" + Take(title, 20)
  {
    PLACEHOLDER_BASE + COLORS[ColorIndex(title)] + "/ffffff?text=" + Take(title, 20)
  }

  /*
   * processApiData / the mapping in searchAnime (src/app.js:251-274, 357-373)
   */

  /**
   * One mapped item. Reading a property of `null` throws, and so does the
   * placeholder when the image is falsy and the title is not a string.
   */
  function CardOf(item: Json): (r: Outcome<Card>)
    ensures r.Raised? <==>
      item == JNull || (!Truthy(Field(item, "image")) && !(Field(item, "title").Some? && Field(item, "title").value.JStr?))
  {
    if item == JNull then Raised
    else
      var title := Field(item, "title");
      var image :=
        if Truthy(Field(item, "image")) then Returned(Field(item, "image"))
        else if title.Some? && title.value.JStr? then Returned(Some(JStr(PlaceholderImage(title.value.s))))
        else Raised;
      if image.Raised? then Raised
      else Returned(Card(
        id := Field(item, "id"),
        provider := Or(Field(item, "provider"), Some(JStr(DEFAULT_PROVIDER))),
        title := title,
        englishTitle := Or(Field(item, "english_title"), title),
        kind := Or(Field(item, "type"), Some(JStr("Anime"))),
        episodes := Field(item, "episodes"),
        year := Or(Field(item, "releaseDate"), Some(JStr("Unknown"))),
        score := "N/A",
        synopsis := "",
        genres := [],
        rating := "",
        image := image.value,
        url := Or(Field(item, "url"), Some(JStr("#")))))
  }

  /**
   * What a mapped card holds: a property the `||` defaults takes the item's
   * value when that is truthy and its default otherwise (`AppState.provider`,
   * `'Anime'`, `'Unknown'`, `'#'`, the title, and the placeholder of the
   * title); the copied properties are the item's, and the fixed properties
   * are constant. The defaulted properties are never falsy, except the
   * English title of an item whose title is falsy.
   */
  lemma CardDefaults(item: Json)
    requires CardOf(item).Returned?
    ensures var c := CardOf(item).value;
      Truthy(c.provider) && Truthy(c.kind) && Truthy(c.year) && Truthy(c.image) && Truthy(c.url) &&
      (Truthy(Field(item, "provider")) ==> c.provider == Field(item, "provider")) &&
      (!Truthy(Field(item, "provider")) ==> c.provider == Some(JStr(DEFAULT_PROVIDER))) &&
      (Truthy(Field(item, "type")) ==> c.kind == Field(item, "type")) &&
      (!Truthy(Field(item, "type")) ==> c.kind == Some(JStr("Anime"))) &&
      (Truthy(Field(item, "releaseDate")) ==> c.year == Field(item, "releaseDate")) &&
      (!Truthy(Field(item, "releaseDate")) ==> c.year == Some(JStr("Unknown"))) &&
      (Truthy(Field(item, "url")) ==> c.url == Field(item, "url")) &&
      (!Truthy(Field(item, "url")) ==> c.url == Some(JStr("#"))) &&
      (Truthy(Field(item, "image")) ==> c.image == Field(item, "image")) &&
      (!Truthy(Field(item, "image")) ==>
        Field(item, "title").Some? && Field(item, "title").value.JStr? &&
        c.image == Some(JStr(PlaceholderImage(Field(item, "title").value.s)))) &&
      (Truthy(Field(item, "english_title")) ==> c.englishTitle == Field(item, "english_title")) &&
      (!Truthy(Field(item, "english_title")) ==> c.englishTitle == c.title) &&
      c.id == Field(item, "id") && c.title == Field(item, "title") && c.episodes == Field(item, "episodes") &&
      c.score == "N/A" && c.synopsis == "" && c.genres == [] && c.rating == ""
  {
  }

  /** `items.map(...)`: the first item that throws makes the whole map throw. */
  function MapCards(items: seq<Json>): (r: Outcome<seq<Card>>)
    ensures r.Returned? <==> forall i :: 0 <= i < |items| ==> CardOf(items[i]).Returned?
    ensures r.Returned? ==> (|r.value| == |items| &&
      forall i :: 0 <= i < |items| ==> r.value[i] == CardOf(items[i]).value)
  {
    PyJson.ListOfSpec(items, CardOf);
    PyJson.ListOf(items, CardOf)
  }

  /** `processApiData(arr)`: `arr.map(...)`, which throws unless `arr` is an array. */
  function ProcessApiData(arr: Json): (r: Outcome<seq<Card>>)
    ensures r.Returned? <==> arr.JArr? && forall i :: 0 <= i < |arr.items| ==> CardOf(arr.items[i]).Returned?
    ensures r.Returned? ==> (|r.value| == |arr.items| &&
      forall i :: 0 <= i < |arr.items| ==> r.value[i] == CardOf(arr.items[i]).value)
  {
    if arr.JArr? then MapCards(arr.items) else Raised
  }

  /** `(data && data[key]) || []`: the property when the reply and the property are truthy, else an empty array. */
  function PropertyOrEmpty(data: Json, key: string): (r: Json)
    ensures Truthy(Some(data)) && Truthy(Field(data, key)) ==> r == Field(data, key).value
    ensures !(Truthy(Some(data)) && Truthy(Field(data, key))) ==> r == JArr([])
  {
    var inner := if Truthy(Some(data)) then Field(data, key) else Some(data);
    Or(inner, Some(JArr([]))).value
  }

  /** `(data && data.results) || []`. */
  function ResultsOf(data: Json): (r: Json)
    ensures Truthy(Some(data)) && Truthy(Field(data, "results")) ==> r == Field(data, "results").value
    ensures !(Truthy(Some(data)) && Truthy(Field(data, "results"))) ==> r == JArr([])
  {
    PropertyOrEmpty(data, "results")
  }

  /** `getFallbackData(query)`: one demo card, its id the clock reading `now`. */
  function FallbackData(query: string, now: int): (r: seq<Card>)
    ensures |r| == 1
    ensures r[0].title == Some(JStr("\"" + query + "\" - Demo Result"))
    ensures r[0].id == Some(JStr(IntToDecimal(now)))
    ensures r[0].provider == Some(JStr(DEFAULT_PROVIDER)) && r[0].url == Some(JStr("#"))
    ensures r[0].image == Some(JStr(PlaceholderImage(query)))
    ensures r[0].kind == Some(JStr("TV")) && r[0].year == Some(JStr("2024")) && r[0].episodes == Some(JNum(12))
    ensures r[0].englishTitle == Some(JStr("Demo Result")) && r[0].score == "8.5" && r[0].rating == "PG-13"
    ensures r[0].synopsis == "Demo result when API is unavailable" && r[0].genres == ["Demo"]
  {
    [Card(
      id := Some(JStr(IntToDecimal(now))),
      provider := Some(JStr(DEFAULT_PROVIDER)),
      title := Some(JStr("\"" + query + "\" - Demo Result")),
      englishTitle := Some(JStr("Demo Result")),
      kind := Some(JStr("TV")),
      episodes := Some(JNum(12)),
      year := Some(JStr("2024")),
      score := "8.5",
      synopsis := "Demo result when API is unavailable",
      genres := ["Demo"],
      rating := "PG-13",
      image := Some(JStr(PlaceholderImage(query))),
      url := Some(JStr("#")))]
  }

  /*
   * Source choice in playEpisode (src/app.js:536-544)
   */

  /** How `Array.prototype.find` ended. */
  datatype Search = Hit(index: nat) | NoHit | Threw

  /**
   * `s.find(test)` from position `from`, where the test reads a property of
   * its argument and so throws on `null`.
   */
  function FindFirst(s: seq<Json>, test: Json -> bool, from: nat): (r: Search)
    requires from <= |s|
    decreases |s| - from
    ensures r.Hit? ==> (from <= r.index < |s| && s[r.index] != JNull && test(s[r.index]) &&
      forall j :: from <= j < r.index ==> s[j] != JNull && !test(s[j]))
    ensures r.NoHit? <==> forall j :: from <= j < |s| ==> s[j] != JNull && !test(s[j])
    ensures r.Threw? ==>
      exists j :: from <= j < |s| && s[j] == JNull && forall k :: from <= k < j ==> s[k] != JNull && !test(s[k])
  {
    if from == |s| then NoHit
    else if s[from] == JNull then Threw
    else if test(s[from]) then Hit(from)
    else FindFirst(s, test, from + 1)
  }

  /** `s.isM3U8` is truthy. */
  predicate Flagged(s: Json) {
    Truthy(Field(s, "isM3U8"))
  }

  /** `/m3u8/i.test(s.quality || '')`, for a quality that is a string. */
  predicate QualityNamesHls(s: Json) {
    var q := Or(Field(s, "quality"), Some(JStr("")));
    q.Some? && q.value.JStr? && HasInfix(Lower(q.value.s), "m3u8", 0)
  }

  /** The quality names HLS exactly when the source is an object whose `quality` text contains `m3u8` in any case. */
  lemma QualityNamesHlsSpec(s: Json)
    ensures QualityNamesHls(s) <==>
      s.JObj? && Member(s.members, "quality").Some? && Member(s.members, "quality").value.JStr? &&
      HasInfix(Lower(Member(s.members, "quality").value.s), "m3u8", 0)
  {
    if s.JObj? && Member(s.members, "quality").Some? && Member(s.members, "quality").value.JStr? &&
       !Truthy(Member(s.members, "quality")) {
      assert Member(s.members, "quality").value.s == [];
      assert !HasInfix(Lower([]), "m3u8", 0);
    }
  }

  /**
   * The source to play: the first flagged HLS source, else the first whose
   * quality names HLS, else the first source. `Raised` when a `null` source
   * is reached by either search.
   */
  function ChooseSource(sources: seq<Json>): (r: Outcome<Json>)
    requires |sources| > 0
    ensures r.Returned? ==> r.value in sources && r.value != JNull
    ensures r.Returned? && !Flagged(r.value) ==> forall k :: 0 <= k < |sources| ==> !Flagged(sources[k])
  {
    match FindFirst(sources, Flagged, 0)
    case Threw => Raised
    case Hit(i) => Returned(sources[i])
    case NoHit =>
      match FindFirst(sources, QualityNamesHls, 0)
      case Threw => Raised
      case Hit(i) => Returned(sources[i])
      case NoHit => Returned(sources[0])
  }

  /** `v.length`: the size of an array or a string, the `length` member of an object, `undefined` otherwise. */
  function LengthOf(v: Json): (r: JsValue)
    ensures v.JArr? ==> r == Some(JNum(|v.items|))
    ensures v.JStr? ==> r == Some(JNum(|v.s|))
    ensures v.JObj? ==> r == Field(v, "length")
    ensures !(v.JArr? || v.JStr? || v.JObj?) ==> r == None
  {
    match v
    case JArr(items) => Some(JNum(|items|))
    case JStr(s) => Some(JNum(|s|))
    case JObj(_) => Field(v, "length")
    case _ => None
  }

  /** What `playEpisode` does with the parsed watch reply. */
  datatype Playback = NoSources | Play(source: Json)

  /**
   * `playEpisode` from the parsed reply to the chosen source: the sources
   * are `(data && data.sources) || []`; a falsy `sources.length` shows "No
   * streaming sources found"; otherwise `sources.find` runs, which is not a
   * function on anything but an array and so throws (`Raised`, the "Failed
   * to load episode" toast); on an array the choice is `ChooseSource`.
   */
  function PlaySource(data: Json): (r: Outcome<Playback>)
    ensures var sources := PropertyOrEmpty(data, "sources");
      (r == Returned(NoSources) <==> !Truthy(LengthOf(sources))) &&
      (Truthy(LengthOf(sources)) && !sources.JArr? ==> r == Raised) &&
      (sources.JArr? && sources.items != [] ==>
        (r.Raised? <==> ChooseSource(sources.items).Raised?) &&
        (r.Returned? ==> r.value == Play(ChooseSource(sources.items).value)))
    ensures r.Returned? && r.value.Play? ==> (PropertyOrEmpty(data, "sources").JArr? &&
      r.value.source in PropertyOrEmpty(data, "sources").items)
  {
    var sources := PropertyOrEmpty(data, "sources");
    if !Truthy(LengthOf(sources)) then Returned(NoSources)
    else if !sources.JArr? then Raised
    else
      var chosen :- ChooseSource(sources.items);
      Returned(Play(chosen))
  }

  /** The choice throws exactly when a `null` comes before every flagged source. */
  lemma ChooseSourceThrows(sources: seq<Json>)
    requires |sources| > 0
    ensures ChooseSource(sources).Raised? <==>
      exists j :: 0 <= j < |sources| && sources[j] == JNull && forall k :: 0 <= k < j ==> !Flagged(sources[k])
  {
    var first := FindFirst(sources, Flagged, 0);
    if first.NoHit? {
      assert FindFirst(sources, QualityNamesHls, 0) != Threw;
    }
    if first.Hit? {
      forall j | 0 <= j < |sources| && sources[j] == JNull
        ensures exists k :: 0 <= k < j && Flagged(sources[k])
      {
        assert j > first.index;
      }
    }
  }

  /** A source flagged as HLS, with no null and no flagged source before it, is chosen. */
  lemma ChooseSourceFlagged(sources: seq<Json>, i: nat)
    requires i < |sources| && sources[i] != JNull && Flagged(sources[i])
    requires forall k :: 0 <= k < i ==> sources[k] != JNull && !Flagged(sources[k])
    ensures ChooseSource(sources) == Returned(sources[i])
  {
    var first := FindFirst(sources, Flagged, 0);
    assert first.Hit? ==> first.index == i;
  }

  /**
   * With no null and no flagged source, the first source whose quality
   * names HLS is chosen.
   */
  lemma ChooseSourceByQuality(sources: seq<Json>, i: nat)
    requires forall k :: 0 <= k < |sources| ==> sources[k] != JNull && !Flagged(sources[k])
    requires i < |sources| && QualityNamesHls(sources[i])
    requires forall k :: 0 <= k < i ==> !QualityNamesHls(sources[k])
    ensures ChooseSource(sources) == Returned(sources[i])
  {
    var second := FindFirst(sources, QualityNamesHls, 0);
    assert second.Hit? ==> second.index == i;
  }

  /** With no null source and none that names HLS either way, the first source is chosen. */
  lemma ChooseSourceDefault(sources: seq<Json>)
    requires |sources| > 0
    requires forall k :: 0 <= k < |sources| ==>
      sources[k] != JNull && !Flagged(sources[k]) && !QualityNamesHls(sources[k])
    ensures ChooseSource(sources) == Returned(sources[0])
  {
  }
}
