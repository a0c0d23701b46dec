/**
 * The backend's time-bounded cache (backend/app.py:112-134): rows keyed by
 * table and key, each carrying the JSON text of a document and the instant
 * it expires. The clock is an integer number of milliseconds.
 */
module CacheStore {
  import opened Common
  import opened Providers

  /** The cache tables that the backend creates. */
  datatype Table = AnimeCache | EpisodeCache | StreamingCache

  /** A JSON document the backend writes into a cache row. */
  datatype CacheDoc =
    | SearchBundle(results: seq<SearchResult>, provider: string)
    | InfoDoc(info: AnimeInfo)
    | StreamDoc(stream: StreamingInfo)

  /** The text of a row's `data` column: a document that parses, or text that does not. */
  datatype Stored = Parsed(doc: CacheDoc) | Unparsable

  datatype Row = Row(provider: string, data: Stored, cachedAt: int, expiresAt: int)

  type Cache = map<(Table, string), Row>

  /** `data.get('provider', 'unknown')` for the documents the backend stores. */
  function ProviderColumn(doc: CacheDoc): string {
    match doc
    case SearchBundle(_, p) => p
    case InfoDoc(info) => info.provider
    case StreamDoc(s) => s.provider
  }

  /** `get_from_cache`: the stored document while its row has not expired and its text parses. */
  function Lookup(c: Cache, t: Table, key: string, now: int): (r: Option<CacheDoc>)
    ensures r.Some? <==> (t, key) in c && c[(t, key)].expiresAt > now && c[(t, key)].data.Parsed?
    ensures r.Some? ==> c[(t, key)].data == Parsed(r.value)
  {
    if (t, key) in c && c[(t, key)].expiresAt > now && c[(t, key)].data.Parsed?
    then Some(c[(t, key)].data.doc)
    else None
  }

  /** `save_to_cache`: insert or replace the row, expiring `seconds` after `now`. */
  function Store(c: Cache, t: Table, key: string, doc: CacheDoc, now: int, seconds: int): (c': Cache)
    ensures (t, key) in c' && c'[(t, key)].data == Parsed(doc) && c'[(t, key)].expiresAt == now + seconds * 1000
    ensures c'[(t, key)].provider == ProviderColumn(doc)
    ensures forall k :: k != (t, key) ==> (k in c' <==> k in c) && (k in c ==> c'[k] == c[k])
  {
    c[(t, key) := Row(ProviderColumn(doc), Parsed(doc), now, now + seconds * 1000)]
  }

  /** A read before the row expires returns what was saved. */
  lemma SaveThenRead(c: Cache, t: Table, key: string, doc: CacheDoc, now: int, seconds: int, later: int)
    requires now <= later < now + seconds * 1000
    ensures Lookup(Store(c, t, key, doc, now, seconds), t, key, later) == Some(doc)
  {
  }

  /** Once the row has expired the read is a miss. */
  lemma ReadAfterExpiry(c: Cache, t: Table, key: string, doc: CacheDoc, now: int, seconds: int, later: int)
    requires later >= now + seconds * 1000
    ensures Lookup(Store(c, t, key, doc, now, seconds), t, key, later) == None
  {
  }

  /** A second save to the same key replaces the first entirely. */
  lemma SecondSaveReplaces(c: Cache, t: Table, key: string, d1: CacheDoc, n1: int, s1: int,
                           d2: CacheDoc, n2: int, s2: int)
    ensures Store(Store(c, t, key, d1, n1, s1), t, key, d2, n2, s2) == Store(c, t, key, d2, n2, s2)
  {
  }

  /** A save touches only its own key. */
  lemma SaveLeavesOtherKeys(c: Cache, t: Table, key: string, doc: CacheDoc, now: int, seconds: int,
                            t': Table, key': string, at: int)
    requires (t', key') != (t, key)
    ensures Lookup(Store(c, t, key, doc, now, seconds), t', key', at) == Lookup(c, t', key', at)
  {
  }
}
