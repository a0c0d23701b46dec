/**
 * The backend's watchlist table (backend/app.py:97-106, 476-515): rows
 * with an AUTOINCREMENT key, added by `POST /api/watchlist` and removed by
 * `DELETE /api/watchlist/<anime_id>`. `anime_id` is not UNIQUE, so the
 * `INSERT OR REPLACE` of an add never replaces a row: every add appends.
 */
module WatchlistTable {
  import opened Common
  import opened Text
  import opened Backend

  /** A value stored in a column. */
  datatype SqlValue = SqlNull | SqlInt(i: int) | SqlText(t: string)

  /** A row of `user_watchlist`; `addedAt` is the clock when it was inserted. */
  datatype WatchRow = WatchRow(
    rowId: int, animeId: SqlValue, title: SqlValue, image: SqlValue,
    currentEpisode: SqlValue, totalEpisodes: SqlValue, status: SqlValue, addedAt: int)

  /** The range of SQLite's 64-bit signed integers. */
  const INT64_MIN := -0x8000_0000_0000_0000
  const INT64_MAX := 0x7FFF_FFFF_FFFF_FFFF

  /**
   * How Python's `sqlite3` binds a parameter: `None`, booleans (as 1 and 0),
   * integers of 64 bits and strings bind; a wider integer (OverflowError),
   * a list or a dict does not.
   */
  function Bind(v: Json): (r: Option<SqlValue>)
    ensures r.None? <==> v.JArr? || v.JObj? || (v.JNum? && !(INT64_MIN <= v.n <= INT64_MAX))
    ensures v.JStr? ==> r == Some(SqlText(v.s))
    ensures v.JNull? ==> r == Some(SqlNull)
    ensures v.JNum? && r.Some? ==> r.value == SqlInt(v.n)
  {
    match v
    case JNull => Some(SqlNull)
    case JBool(b) => Some(SqlInt(if b then 1 else 0))
    case JNum(n) => if INT64_MIN <= n <= INT64_MAX then Some(SqlInt(n)) else None
    case JStr(s) => Some(SqlText(s))
    case JArr(_) => None
    case JObj(_) => None
  }

  /** A TEXT column stores an integer as its decimal text. */
  function TextAffinity(v: SqlValue): (r: SqlValue)
    ensures !r.SqlInt?
    ensures v.SqlInt? ==> r == SqlText(IntToDecimal(v.i))
    ensures !v.SqlInt? ==> r == v
  {
    if v.SqlInt? then SqlText(IntToDecimal(v.i)) else v
  }

  /** An INTEGER column stores text that spells a natural number as that number. */
  function IntegerAffinity(v: SqlValue): (r: SqlValue)
    ensures r.SqlText? ==> v == r
    ensures !v.SqlText? ==> r == v
    ensures v.SqlText? && r.SqlInt? ==> v.t != [] && AllDigits(v.t) && r.i >= 0
  {
    if v.SqlText? && v.t != [] && AllDigits(v.t) then SqlInt(ParseDecimal(v.t)) else v
  }

  /** The decimal text of a natural number is stored in an INTEGER column as that number. */
  lemma IntegerAffinityReadsDecimal(n: nat)
    ensures IntegerAffinity(SqlText(NatToDecimal(n))) == SqlInt(n)
  {
    ParseNatToDecimal(n);
  }

  /** A request body that Python's `in` can search: a dict, a list or a string. */
  predicate Searchable(body: Json) {
    body.JObj? || body.JArr? || body.JStr?
  }

  /** `field in data`: a key of a dict, an element of a list, a substring of a string. */
  predicate In(field: string, body: Json)
    requires Searchable(body)
  {
    match body
    case JObj(m) => Member(m, field).Some?
    case JArr(items) => JStr(field) in items
    case JStr(s) => HasInfix(s, field, 0)
  }

  /** `all(field in data for field in required_fields)` once the body is searchable. */
  predicate HasRequired(body: Json)
    requires Searchable(body)
  {
    In("anime_id", body) && In("title", body) && In("image", body)
  }

  /** What an add does: answer without touching the table, or insert these column values. */
  datatype Prepared =
    | Refuse(reply: Reply<string>)
    | Insert(animeId: SqlValue, title: SqlValue, image: SqlValue, totalEpisodes: SqlValue, status: SqlValue)

  /** The five bound and stored values of the INSERT, when all of them bind. */
  function Values(m: seq<(string, Json)>): Option<(SqlValue, SqlValue, SqlValue, SqlValue, SqlValue)>
    requires Member(m, "anime_id").Some? && Member(m, "title").Some? && Member(m, "image").Some?
  {
    var a := Bind(Member(m, "anime_id").value);
    var t := Bind(Member(m, "title").value);
    var i := Bind(Member(m, "image").value);
    var e := Bind(Member(m, "total_episodes").GetOr(JNum(0)));
    var s := Bind(Member(m, "status").GetOr(JStr("watching")));
    if a.Some? && t.Some? && i.Some? && e.Some? && s.Some?
    then Some((TextAffinity(a.value), TextAffinity(t.value), TextAffinity(i.value),
               IntegerAffinity(e.value), TextAffinity(s.value)))
    else None
  }

  /**
   * `api_add_to_watchlist` up to the INSERT. A body Python cannot search
   * raises outside the handler's `try` (500 from the error handler); a
   * body missing a required field is refused with 400; subscripting a
   * list or a string, or binding a list or a dict, raises inside the `try`
   * (500 "Failed to add to watchlist"); otherwise the row's values.
   */
  function Prepare(body: Json): (r: Prepared)
    ensures r == Refuse(ServerError("Internal server error")) <==> !Searchable(body)
    ensures r == Refuse(BadRequest("Missing required fields")) <==> Searchable(body) && !HasRequired(body)
    ensures r.Insert? <==> body.JObj? && HasRequired(body) && Values(body.members).Some?
    ensures r.Refuse? ==> r.reply.Status() == 400 || r.reply.Status() == 500
    ensures r.Insert? ==> !r.animeId.SqlInt? && !r.status.SqlInt?
    ensures r.Insert? ==> (body.JObj? &&
      var m := body.members;
      Member(m, "anime_id").Some? && Member(m, "title").Some? && Member(m, "image").Some? &&
      Bind(Member(m, "anime_id").value).Some? && Bind(Member(m, "title").value).Some? &&
      Bind(Member(m, "image").value).Some? &&
      Bind(Member(m, "total_episodes").GetOr(JNum(0))).Some? &&
      Bind(Member(m, "status").GetOr(JStr("watching"))).Some? &&
      r.animeId == TextAffinity(Bind(Member(m, "anime_id").value).value) &&
      r.title == TextAffinity(Bind(Member(m, "title").value).value) &&
      r.image == TextAffinity(Bind(Member(m, "image").value).value) &&
      r.totalEpisodes == IntegerAffinity(Bind(Member(m, "total_episodes").GetOr(JNum(0))).value) &&
      r.status == TextAffinity(Bind(Member(m, "status").GetOr(JStr("watching"))).value))
  {
    if !Searchable(body) then Refuse(ServerError("Internal server error"))
    else if !HasRequired(body) then Refuse(BadRequest("Missing required fields"))
    else if !body.JObj? then Refuse(ServerError("Failed to add to watchlist"))
    else
      var v := Values(body.members);
      if v.None? then Refuse(ServerError("Failed to add to watchlist"))
      else Insert(v.value.0, v.value.1, v.value.2, v.value.3, v.value.4)
  }

  /** The row identifiers increase along the table and stay below `next`. */
  predicate IdsBelow(rows: seq<WatchRow>, next: int) {
    (forall i, j :: 0 <= i < j < |rows| ==> rows[i].rowId < rows[j].rowId) &&
    (forall i :: 0 <= i < |rows| ==> rows[i].rowId < next)
  }

  /** A row appended with the next identifier keeps the identifiers increasing. */
  lemma AppendKeepsIds(rows: seq<WatchRow>, row: WatchRow, next: int)
    requires IdsBelow(rows, next) && row.rowId == next
    ensures IdsBelow(rows + [row], next + 1)
  {
    var all := rows + [row];
    assert forall i :: 0 <= i < |rows| ==> all[i] == rows[i];
  }

  /** `DELETE FROM user_watchlist WHERE anime_id = ?` with the path's text: every matching row goes. */
  function Without(rows: seq<WatchRow>, animeId: string): (r: seq<WatchRow>)
    ensures |r| <= |rows|
    ensures forall row :: row in r <==> row in rows && row.animeId != SqlText(animeId)
  {
    if rows == [] then []
    else (if rows[0].animeId == SqlText(animeId) then [] else [rows[0]]) + Without(rows[1..], animeId)
  }

  /** The delete removes something exactly when some row has that id. */
  lemma {:induction false} WithoutShrinks(rows: seq<WatchRow>, animeId: string)
    ensures |Without(rows, animeId)| < |rows| <==> exists row :: row in rows && row.animeId == SqlText(animeId)
  {
    if rows != [] {
      WithoutShrinks(rows[1..], animeId);
      assert rows == [rows[0]] + rows[1..];
      if rows[0].animeId != SqlText(animeId) {
        assert forall row :: row in rows && row.animeId == SqlText(animeId) ==> row in rows[1..];
      }
    }
  }

  /** The delete keeps the remaining rows in their order, so the identifiers still increase. */
  lemma {:induction false} WithoutKeepsIds(rows: seq<WatchRow>, animeId: string, next: int)
    requires IdsBelow(rows, next)
    ensures IdsBelow(Without(rows, animeId), next)
  {
    if rows != [] {
      WithoutKeepsIds(rows[1..], animeId, next);
      var rest := Without(rows[1..], animeId);
      forall k | 0 <= k < |rest|
        ensures rows[0].rowId < rest[k].rowId
      {
        assert rest[k] in rows[1..];
      }
    }
  }

  /** Deleting from a table with one more row at its end treats the earlier rows as before. */
  lemma {:induction false} WithoutAppend(rows: seq<WatchRow>, row: WatchRow, animeId: string)
    ensures Without(rows + [row], animeId) ==
      Without(rows, animeId) + (if row.animeId == SqlText(animeId) then [] else [row])
  {
    var tail := if row.animeId == SqlText(animeId) then [] else [row];
    if rows == [] {
      assert [row][1..] == [];
      assert Without([row], animeId) == tail + Without([], animeId);
      assert tail + [] == tail;
    } else {
      var all := rows + [row];
      var head := if rows[0].animeId == SqlText(animeId) then [] else [rows[0]];
      WithoutAppend(rows[1..], row, animeId);
      assert all[0] == rows[0] && all[1..] == rows[1..] + [row];
      calc {
        Without(all, animeId);
        head + Without(rows[1..] + [row], animeId);
        head + (Without(rows[1..], animeId) + tail);
        { assert head + (Without(rows[1..], animeId) + tail) == (head + Without(rows[1..], animeId)) + tail; }
        (head + Without(rows[1..], animeId)) + tail;
        Without(rows, animeId) + tail;
      }
    }
  }

  class Watchlist {
    /** `user_watchlist`, in row identifier order. */
    var rows: seq<WatchRow>
    /** The AUTOINCREMENT counter: the next row identifier. */
    var nextId: int

    ghost predicate Valid()
      reads this
    {
      nextId >= 1 && IdsBelow(rows, nextId)
    }

    /** A freshly created table. */
    constructor ()
      ensures Valid() && rows == [] && nextId == 1
    {
      rows := [];
      nextId := 1;
    }

    /**
     * `api_add_to_watchlist` with the JSON body `body` at instant `now`.
     * A refused body leaves the table unchanged; otherwise one row is
     * appended, whatever rows already carry the same `anime_id`, with a new
     * identifier, current episode 1 and `added_at` now.
     */
    method Add(body: Json, now: int) returns (reply: Reply<string>)
      requires Valid()
      modifies this
      ensures Valid()
      ensures Prepare(body).Refuse? ==>
        reply == Prepare(body).reply && rows == old(rows) && nextId == old(nextId)
      ensures Prepare(body).Insert? ==>
        var p := Prepare(body);
        reply == Ok("Added to watchlist") && nextId == old(nextId) + 1 &&
        rows == old(rows) + [WatchRow(old(nextId), p.animeId, p.title, p.image, SqlInt(1),
                                      p.totalEpisodes, p.status, now)]
    {
      var p := Prepare(body);
      if p.Refuse? {
        return p.reply;
      }
      var row := WatchRow(nextId, p.animeId, p.title, p.image, SqlInt(1), p.totalEpisodes, p.status, now);
      AppendKeepsIds(rows, row, nextId);
      rows := rows + [row];
      nextId := nextId + 1;
      reply := Ok("Added to watchlist");
    }

    /**
     * `api_remove_from_watchlist`: every row whose `anime_id` is the path
     * text goes; 404 when there was none.
     */
    method Remove(animeId: string) returns (reply: Reply<string>)
      requires Valid()
      modifies this`rows
      ensures Valid()
      ensures rows == Without(old(rows), animeId)
      ensures reply.Ok? <==> exists row :: row in old(rows) && row.animeId == SqlText(animeId)
      ensures reply == Ok("Removed from watchlist") || reply == NotFound("Anime not found in watchlist")
    {
      var kept := Without(rows, animeId);
      WithoutShrinks(rows, animeId);
      WithoutKeepsIds(rows, animeId, nextId);
      var removed := |rows| - |kept|;
      rows := kept;
      if removed > 0 {
        reply := Ok("Removed from watchlist");
      } else {
        reply := NotFound("Anime not found in watchlist");
      }
    }
  }

  /** The text a DELETE path must carry to match a stored `anime_id`; none for NULL. */
  function PathFor(v: SqlValue): (r: Option<string>)
    requires !v.SqlInt?
    ensures r.Some? ==> v == SqlText(r.value)
    ensures r.None? <==> v.SqlNull?
  {
    if v.SqlText? then Some(v.t) else None
  }

  /**
   * After an add, deleting by the stored id text removes the new row with
   * every older row of that id and keeps every other row; a row added with
   * a null `anime_id` is kept by every delete.
   */
  lemma AddThenRemove(rows: seq<WatchRow>, body: Json, id: int, now: int, path: string)
    requires Prepare(body).Insert?
    ensures var p := Prepare(body);
      var row := WatchRow(id, p.animeId, p.title, p.image, SqlInt(1), p.totalEpisodes, p.status, now);
      (PathFor(p.animeId) == Some(path) ==> Without(rows + [row], path) == Without(rows, path)) &&
      (p.animeId.SqlNull? ==> Without(rows + [row], path) == Without(rows, path) + [row])
  {
    var p := Prepare(body);
    var row := WatchRow(id, p.animeId, p.title, p.image, SqlInt(1), p.totalEpisodes, p.status, now);
    WithoutAppend(rows, row, path);
  }

  /** A numeric `anime_id` is stored as its decimal text, so the path spelling that number deletes it. */
  lemma NumericIdStoredAsText(body: Json, n: int)
    requires Prepare(body).Insert? && Member(body.members, "anime_id") == Some(JNum(n))
    ensures PathFor(Prepare(body).animeId) == Some(IntToDecimal(n))
  {
  }

  /** An integer id wider than 64 bits does not bind, and the add answers 500 without touching the table. */
  lemma WideIdRefused(body: Json, n: int)
    requires body.JObj? && HasRequired(body) && Member(body.members, "anime_id") == Some(JNum(n))
    requires !(INT64_MIN <= n <= INT64_MAX)
    ensures Prepare(body) == Refuse(ServerError("Failed to add to watchlist"))
  {
    assert Bind(JNum(n)).None?;
  }

  /** Two adds of the same body leave two rows with that id: the second add does not replace the first. */
  lemma AddTwiceKeepsBoth(rows: seq<WatchRow>, body: Json, id: int, now: int, later: int, path: string)
    requires Prepare(body).Insert? && PathFor(Prepare(body).animeId) == Some(path)
    ensures var p := Prepare(body);
      var first := WatchRow(id, p.animeId, p.title, p.image, SqlInt(1), p.totalEpisodes, p.status, now);
      var second := WatchRow(id + 1, p.animeId, p.title, p.image, SqlInt(1), p.totalEpisodes, p.status, later);
      |Without(rows + [first] + [second], path)| + 2 <= |rows + [first] + [second]|
  {
    var p := Prepare(body);
    var first := WatchRow(id, p.animeId, p.title, p.image, SqlInt(1), p.totalEpisodes, p.status, now);
    var second := WatchRow(id + 1, p.animeId, p.title, p.image, SqlInt(1), p.totalEpisodes, p.status, later);
    WithoutAppend(rows + [first], second, path);
    WithoutAppend(rows, first, path);
  }
}
