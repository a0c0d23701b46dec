/**
 * What the multi-provider search returns (backend/app.py:261-290): the
 * primary provider's hits, then those of every backup provider that did not
 * raise, de-duplicated by lower-cased, stripped title (first occurrence
 * wins) and cut to twenty. A hit whose title is not a string has no
 * `lower`, and the de-duplication raises on it.
 */
module Fallback {
  import opened Common
  import opened Text
  import opened Providers

  /** Below this many primary hits the backups are queried. */
  const MIN_RESULTS := 10
  /** At most this many hits are returned. */
  const MAX_RESULTS := 20

  /** `title.lower().strip()`: the identity under which two hits are the same anime. */
  function TitleKey(title: string): string {
    Trim(Python, Lower(title))
  }

  /** The key is the lower-cased title without surrounding whitespace, so it has no upper-case letter. */
  lemma TitleKeySpec(title: string)
    ensures exists i :: IsTrimAt(IsPythonSpace, Lower(title), i, TitleKey(title))
    ensures forall k :: 0 <= k < |TitleKey(title)| ==> !IsAsciiUpper(TitleKey(title)[k])
  {
    var l := Lower(title);
    var key := TitleKey(title);
    TrimSpec(Python, l);
    var i :| IsTrimAt(IsPythonSpace, l, i, key);
    forall k | 0 <= k < |key| ensures !IsAsciiUpper(key[k]) {
      assert key[k] == l[i + k];
    }
  }

  /** Every hit has a string title, so that the de-duplication loop does not raise. */
  predicate Titled(s: seq<SearchResult>) {
    forall i :: 0 <= i < |s| ==> s[i].title.JStr?
  }

  /** The title key of a hit with a string title. */
  function Key(r: SearchResult): string {
    if r.title.JStr? then TitleKey(r.title.s) else ""
  }

  /*
   * The de-duplication is stated for any key function: the proofs below need
   * only that two elements with equal keys count as the same title.
   */

  /** The set of keys of `s`. */
  function KeySet<T>(s: seq<T>, key: T -> string): set<string> {
    set i | 0 <= i < |s| :: key(s[i])
  }

  /** No two elements of `s` share a key. */
  predicate DistinctKeys<T>(s: seq<T>, key: T -> string) {
    forall a, b :: 0 <= a < b < |s| ==> key(s[a]) != key(s[b])
  }

  /** `s[i]` is the first element of `s` with its key. */
  predicate IsFirstOfKey<T>(s: seq<T>, key: T -> string, i: int)
    requires 0 <= i < |s|
  {
    forall j :: 0 <= j < i ==> key(s[j]) != key(s[i])
  }

  /** The elements of `s[..n]` that are first of their key, in their order in `s`. */
  function Dedup<T>(s: seq<T>, key: T -> string, n: nat): seq<T>
    requires n <= |s|
  {
    if n == 0 then []
    else Dedup(s, key, n - 1) + (if IsFirstOfKey(s, key, n - 1) then [s[n - 1]] else [])
  }

  /** The hits of `s`, first occurrence of each title key only. */
  function Unique(s: seq<SearchResult>): seq<SearchResult> {
    Dedup(s, Key, |s|)
  }

  /** What a backup provider's search ended with. */
  function Hits(o: Outcome<seq<SearchResult>>): seq<SearchResult> {
    match o
    case Returned(rs) => rs
    case Raised => []
  }

  /** Every hit of the backups that returned, in the order they were queried. */
  function Successes(backups: seq<(string, Outcome<seq<SearchResult>>)>): seq<SearchResult> {
    if backups == [] then [] else Hits(backups[0].1) + Successes(backups[1..])
  }

  /** The providers asked, in order. */
  function Asked(backups: seq<(string, Outcome<seq<SearchResult>>)>): (names: seq<string>)
    ensures |names| == |backups| && forall k :: 0 <= k < |backups| ==> names[k] == backups[k].0
  {
    seq(|backups|, k requires 0 <= k < |backups| => backups[k].0)
  }

  /** Asking one more backup adds its hits, if any, at the end. */
  lemma {:induction false} SuccessesAppend(backups: seq<(string, Outcome<seq<SearchResult>>)>, b: (string, Outcome<seq<SearchResult>>))
    ensures Successes(backups + [b]) == Successes(backups) + Hits(b.1)
    ensures Asked(backups + [b]) == Asked(backups) + [b.0]
  {
    if backups != [] {
      assert (backups + [b])[1..] == backups[1..] + [b];
      SuccessesAppend(backups[1..], b);
    }
  }

  /** `all_results.extend(...)` after one more backup: what is collected stays the primary hits and every success. */
  lemma CollectedAppend(primary: seq<SearchResult>, all: seq<SearchResult>,
                        backups: seq<(string, Outcome<seq<SearchResult>>)>, b: (string, Outcome<seq<SearchResult>>))
    requires all == primary + Successes(backups)
    ensures (if b.1.Returned? then all + b.1.value else all) == primary + Successes(backups + [b])
  {
    SuccessesAppend(backups, b);
  }

  /** The list `search_with_fallback` returns when the primary provider returned `primary`. */
  function FallbackResult(primary: seq<SearchResult>, backups: seq<(string, Outcome<seq<SearchResult>>)>): seq<SearchResult> {
    Take(Unique(primary + Successes(backups)), MAX_RESULTS)
  }

  /**
   * How `search_with_fallback` ends once the primary provider returned
   * `primary` and the backups ended as `backups`: FallbackResult, or the
   * exception of the de-duplication loop at a title that is not a string.
   */
  function Merged(primary: seq<SearchResult>, backups: seq<(string, Outcome<seq<SearchResult>>)>): Outcome<seq<SearchResult>> {
    if Titled(primary + Successes(backups)) then Returned(FallbackResult(primary, backups)) else Raised
  }

  // ---------------------------------------------------------------------------
  // The de-duplication loop, proved against Unique
  // ---------------------------------------------------------------------------

  lemma KeySetExtend<T>(s: seq<T>, key: T -> string, i: nat)
    requires i < |s|
    ensures KeySet(s[..i + 1], key) == KeySet(s[..i], key) + {key(s[i])}
  {
    var a, b := s[..i + 1], s[..i];
    forall k | k in KeySet(a, key) ensures k in KeySet(b, key) + {key(s[i])} {
      var j :| 0 <= j < |a| && k == key(a[j]);
      if j < i { assert b[j] == a[j]; }
    }
    forall k | k in KeySet(b, key) + {key(s[i])} ensures k in KeySet(a, key) {
      if k == key(s[i]) {
        assert a[i] == s[i];
      } else {
        var j :| 0 <= j < |b| && k == key(b[j]);
        assert a[j] == b[j];
      }
    }
  }

  /** An element is first of its key exactly when its key has not been seen before it. */
  lemma FirstOfKeyIffUnseen<T>(s: seq<T>, key: T -> string, i: nat)
    requires i < |s|
    ensures IsFirstOfKey(s, key, i) <==> key(s[i]) !in KeySet(s[..i], key)
  {
    var p := s[..i];
    if key(s[i]) in KeySet(p, key) {
      var j :| 0 <= j < |p| && key(s[i]) == key(p[j]);
      assert p[j] == s[j];
    }
    if !IsFirstOfKey(s, key, i) {
      var j :| 0 <= j < i && key(s[j]) == key(s[i]);
      assert p[j] == s[j];
    }
  }

  /** One step of the loop below: an element is kept exactly when its key is new. */
  lemma DedupStep<T>(s: seq<T>, key: T -> string, i: nat)
    requires i < |s|
    ensures Dedup(s, key, i + 1) ==
      Dedup(s, key, i) + (if key(s[i]) in KeySet(s[..i], key) then [] else [s[i]])
    ensures KeySet(s[..i + 1], key) == KeySet(s[..i], key) + {key(s[i])}
  {
    FirstOfKeyIffUnseen(s, key, i);
    KeySetExtend(s, key, i);
  }

  /**
   * The `seen_titles` / `unique_results` loop, for a key function `key`
   * that is defined where `hasKey` holds: an exception at the first element
   * without a key, Dedup otherwise. The search calls it with HasTitle and
   * Key, so that it computes Unique or raises where Titled fails.
   */
  method Deduplicate<T>(all: seq<T>, hasKey: T -> bool, key: T -> string) returns (unique: Outcome<seq<T>>)
    ensures unique.Raised? <==> exists i :: 0 <= i < |all| && !hasKey(all[i])
    ensures unique.Returned? ==> unique.value == Dedup(all, key, |all|)
  {
    var seen: set<string> := {};
    var kept: seq<T> := [];
    var i := 0;
    while i < |all|
      invariant 0 <= i <= |all|
      invariant forall k :: 0 <= k < i ==> hasKey(all[k])
      invariant seen == KeySet(all[..i], key)
      invariant kept == Dedup(all, key, i)
    {
      if !hasKey(all[i]) {
        return Raised;
      }
      var titleKey := key(all[i]);
      DedupStep(all, key, i);
      if titleKey !in seen {
        seen := seen + {titleKey};
        kept := kept + [all[i]];
      }
      i := i + 1;
    }
    assert all[..i] == all;
    return Returned(kept);
  }

  /** A hit whose title is a string, so that `lower` applies to it. */
  predicate HasTitle(r: SearchResult) {
    r.title.JStr?
  }

  /**
   * The end of `search_with_fallback`: everything collected, `all`, is
   * de-duplicated by title and cut to MAX_RESULTS.
   */
  method MergeCollected(all: seq<SearchResult>, ghost primary: seq<SearchResult>,
                        ghost backups: seq<(string, Outcome<seq<SearchResult>>)>)
    returns (r: Outcome<seq<SearchResult>>)
    requires all == primary + Successes(backups)
    ensures r == Merged(primary, backups)
  {
    var unique := Deduplicate(all, HasTitle, Key);
    if unique.Raised? {
      return Raised;
    }
    return Returned(Take(unique.value, MAX_RESULTS));
  }

  // ---------------------------------------------------------------------------
  // What Dedup keeps
  // ---------------------------------------------------------------------------

  lemma KeySetAppend<T>(d: seq<T>, key: T -> string, x: T)
    ensures KeySet(d + [x], key) == KeySet(d, key) + {key(x)}
  {
    KeySetExtend(d + [x], key, |d|);
    assert (d + [x])[..|d|] == d;
    assert (d + [x])[..|d| + 1] == d + [x];
  }

  /** De-duplication loses no key. */
  lemma {:induction false} DedupKeys<T>(s: seq<T>, key: T -> string, n: nat)
    requires n <= |s|
    ensures KeySet(Dedup(s, key, n), key) == KeySet(s[..n], key)
  {
    if n > 0 {
      DedupKeys(s, key, n - 1);
      KeySetExtend(s, key, n - 1);
      FirstOfKeyIffUnseen(s, key, n - 1);
      if IsFirstOfKey(s, key, n - 1) {
        KeySetAppend(Dedup(s, key, n - 1), key, s[n - 1]);
      } else {
        assert Dedup(s, key, n) == Dedup(s, key, n - 1);
      }
    }
  }

  /** No two kept elements share a key. */
  lemma {:induction false} DedupDistinct<T>(s: seq<T>, key: T -> string, n: nat)
    requires n <= |s|
    ensures DistinctKeys(Dedup(s, key, n), key)
  {
    if n > 0 {
      DedupDistinct(s, key, n - 1);
      var d := Dedup(s, key, n - 1);
      if IsFirstOfKey(s, key, n - 1) {
        DedupKeys(s, key, n - 1);
        FirstOfKeyIffUnseen(s, key, n - 1);
        var e := d + [s[n - 1]];
        forall a, b | 0 <= a < b < |e| ensures key(e[a]) != key(e[b]) {
          if b == |d| {
            assert key(e[a]) in KeySet(d, key);
          } else {
            assert e[a] == d[a] && e[b] == d[b];
          }
        }
      }
    }
  }

  /**
   * The positions in `s` of the kept elements: strictly increasing, each the
   * first of its key, and every first-of-key position below `n` among them.
   * So the result is an order-preserving subsequence in which the first
   * occurrence of each key wins.
   */
  function KeptIndices<T>(s: seq<T>, key: T -> string, n: nat): (idx: seq<nat>)
    requires n <= |s|
    ensures |idx| == |Dedup(s, key, n)|
    ensures forall k :: 0 <= k < |idx| ==>
      (idx[k] < n && Dedup(s, key, n)[k] == s[idx[k]] && IsFirstOfKey(s, key, idx[k]))
    ensures forall a, b :: 0 <= a < b < |idx| ==> idx[a] < idx[b]
    ensures forall i :: 0 <= i < n && IsFirstOfKey(s, key, i) ==> i in idx
  {
    if n == 0 then []
    else
      var prev := KeptIndices(s, key, n - 1);
      if IsFirstOfKey(s, key, n - 1) then
        assert Dedup(s, key, n) == Dedup(s, key, n - 1) + [s[n - 1]];
        prev + [n - 1]
      else
        assert Dedup(s, key, n) == Dedup(s, key, n - 1);
        prev
  }

  /** When no two elements share a key, nothing is dropped. */
  lemma {:induction false} DedupOfDistinct<T>(s: seq<T>, key: T -> string, n: nat)
    requires n <= |s| && DistinctKeys(s, key)
    ensures Dedup(s, key, n) == s[..n]
  {
    if n > 0 {
      DedupOfDistinct(s, key, n - 1);
      assert IsFirstOfKey(s, key, n - 1);
      assert s[..n] == s[..n - 1] + [s[n - 1]];
    }
  }

  /** A sequence with distinct keys has as many keys as elements. */
  lemma {:induction false} DistinctKeysCount<T>(d: seq<T>, key: T -> string)
    requires DistinctKeys(d, key)
    ensures |KeySet(d, key)| == |d|
  {
    if d != [] {
      var p := d[..|d| - 1];
      var x := d[|d| - 1];
      assert DistinctKeys(p, key) by {
        forall a, b | 0 <= a < b < |p| ensures key(p[a]) != key(p[b]) {
          assert p[a] == d[a] && p[b] == d[b];
        }
      }
      DistinctKeysCount(p, key);
      KeySetAppend(p, key, x);
      assert d == p + [x];
      assert forall j :: 0 <= j < |p| ==> key(p[j]) != key(x) by {
        forall j | 0 <= j < |p| ensures key(p[j]) != key(x) {
          assert p[j] == d[j];
        }
      }
    }
  }

  /** Only the first `n` elements decide Dedup(s, key, n). */
  lemma {:induction false} DedupSamePrefix<T>(s: seq<T>, t: seq<T>, key: T -> string, n: nat)
    requires n <= |s| && n <= |t| && s[..n] == t[..n]
    ensures Dedup(s, key, n) == Dedup(t, key, n)
  {
    if n > 0 {
      assert s[..n - 1] == t[..n - 1] by {
        assert s[..n - 1] == s[..n][..n - 1];
        assert t[..n - 1] == t[..n][..n - 1];
      }
      DedupSamePrefix(s, t, key, n - 1);
      assert forall j :: 0 <= j < n ==> s[j] == s[..n][j] == t[..n][j] == t[j];
      assert IsFirstOfKey(s, key, n - 1) == IsFirstOfKey(t, key, n - 1);
    }
  }

  /** Dedup only grows with `n`: Dedup(s, key, m) is a prefix of Dedup(s, key, n) for m <= n. */
  lemma {:induction false} DedupGrows<T>(s: seq<T>, key: T -> string, m: nat, n: nat)
    requires m <= n <= |s|
    ensures |Dedup(s, key, m)| <= |Dedup(s, key, n)|
    ensures Dedup(s, key, n)[..|Dedup(s, key, m)|] == Dedup(s, key, m)
  {
    if m < n {
      DedupGrows(s, key, m, n - 1);
      var a, b := Dedup(s, key, m), Dedup(s, key, n - 1);
      assert Dedup(s, key, n)[..|b|] == b;
      assert b[..|a|] == a;
    }
  }

  // ---------------------------------------------------------------------------
  // The search result
  // ---------------------------------------------------------------------------

  /**
   * The returned list: at most twenty hits, no two with the same title key,
   * a prefix of the de-duplicated accumulation (primary hits first, then the
   * backups in their configured order), and, when the accumulation holds at
   * most twenty distinct titles, every one of them.
   */
  lemma FallbackResultSpec(primary: seq<SearchResult>, backups: seq<(string, Outcome<seq<SearchResult>>)>)
    ensures var r := FallbackResult(primary, backups);
      var all := primary + Successes(backups);
      |r| <= MAX_RESULTS && DistinctKeys(r, Key) && r == Unique(all)[..|r|] &&
      (|KeySet(all, Key)| <= MAX_RESULTS ==> KeySet(r, Key) == KeySet(all, Key))
  {
    var all := primary + Successes(backups);
    var u := Unique(all);
    var r := FallbackResult(primary, backups);
    DedupDistinct(all, Key, |all|);
    DedupKeys(all, Key, |all|);
    assert all[..|all|] == all;
    DistinctKeysCount(u, Key);
    assert DistinctKeys(r, Key) by {
      forall a, b | 0 <= a < b < |r| ensures Key(r[a]) != Key(r[b]) {
        assert r[a] == u[a] && r[b] == u[b];
      }
    }
  }

  /** When the primary's titles are distinct and at most twenty, all of its hits lead the result. */
  lemma PrimaryHitsKept(primary: seq<SearchResult>, backups: seq<(string, Outcome<seq<SearchResult>>)>)
    requires DistinctKeys(primary, Key) && |primary| <= MAX_RESULTS
    ensures |primary| <= |FallbackResult(primary, backups)|
    ensures FallbackResult(primary, backups)[..|primary|] == primary
  {
    var all := primary + Successes(backups);
    var n := |primary|;
    assert all[..n] == primary[..n] == primary;
    DedupSamePrefix(all, primary, Key, n);
    DedupOfDistinct(primary, Key, n);
    DedupGrows(all, Key, n, |all|);
    var u := Unique(all);
    var r := FallbackResult(primary, backups);
    assert u[..n] == primary;
    assert r[..n] == u[..n];
  }
}
