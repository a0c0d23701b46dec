/**
 * The Python operations the backend applies to parsed JSON responses
 * (backend/app.py:168-385): truth value, `dict.get`, `in`, subscription,
 * iteration, `len`, `str` and `split`. Each is modelled on every kind of
 * value, and the ones Python refuses for a kind end in `Raised`.
 */
module PyJson {
  import opened Common
  import opened Text

  /** `bool(v)`: null, false, zero and empty strings, lists and objects are false. */
  predicate Truthy(v: Json) {
    match v
    case JNull => false
    case JBool(b) => b
    case JNum(n) => n != 0
    case JStr(s) => s != []
    case JArr(items) => items != []
    case JObj(members) => members != []
  }

  /** The distinct keys of an object, in order of first appearance: what iterating a dict yields. */
  function Keys(members: seq<(string, Json)>): (keys: seq<string>)
    ensures forall k :: k in keys <==> Member(members, k).Some?
    ensures members != [] ==> keys != []
  {
    if members == [] then []
    else
      var rest := Keys(members[..|members| - 1]);
      var k := members[|members| - 1].0;
      assert forall j :: k != j ==> Member(members, j) == Member(members[..|members| - 1], j);
      if k in rest then rest else rest + [k]
  }

  /**
   * `v.get(key, default)`: the member's value when the key is present, a
   * `null` value included, and `default` when it is absent. Only objects
   * have `get`; on anything else it raises.
   */
  function Get(v: Json, key: string, default: Json): (r: Outcome<Json>)
    ensures r.Raised? <==> !v.JObj?
    ensures v.JObj? ==> r == Returned(Member(v.members, key).GetOr(default))
  {
    if v.JObj? then Returned(Member(v.members, key).GetOr(default)) else Raised
  }

  /**
   * `key in v`: key membership for an object, an equal element for a list, a
   * substring for a string; a number, a boolean or null is not a container
   * and raises.
   */
  function Contains(v: Json, key: string): (r: Outcome<bool>)
    ensures r.Raised? <==> v.JNull? || v.JBool? || v.JNum?
    ensures v.JObj? ==> r == Returned(Member(v.members, key).Some?)
  {
    match v
    case JObj(members) => Returned(Member(members, key).Some?)
    case JArr(items) => Returned(JStr(key) in items)
    case JStr(s) => Returned(HasInfix(s, key, 0))
    case _ => Raised
  }

  /** `v[key]`: the member's value; a missing key, or a value that is not an object, raises. */
  function Index(v: Json, key: string): (r: Outcome<Json>)
    ensures r.Returned? <==> v.JObj? && Member(v.members, key).Some?
    ensures r.Returned? ==> r.value == Member(v.members, key).value
  {
    if v.JObj? && Member(v.members, key).Some? then Returned(Member(v.members, key).value) else Raised
  }

  /**
   * What `for x in v` visits: the elements of a list, the keys of an object,
   * the one-character strings of a string; null, numbers and booleans are
   * not iterable and raise.
   */
  function Elements(v: Json): (r: Outcome<seq<Json>>)
    ensures r.Raised? <==> v.JNull? || v.JBool? || v.JNum?
    ensures v.JArr? ==> r == Returned(v.items)
    ensures r.Returned? && !v.JArr? ==> forall i :: 0 <= i < |r.value| ==> r.value[i].JStr?
    ensures r.Returned? ==> (r.value == [] <==> !Truthy(v))
  {
    match v
    case JArr(items) => Returned(items)
    case JObj(members) =>
      var keys := Keys(members);
      Returned(seq(|keys|, i requires 0 <= i < |keys| => JStr(keys[i])))
    case JStr(s) => Returned(seq(|s|, i requires 0 <= i < |s| => JStr([s[i]])))
    case _ => Raised
  }

  /** `len(v)` of a string, a list or an object; anything else raises. */
  function Len(v: Json): (r: Outcome<nat>)
    ensures r.Raised? <==> v.JNull? || v.JBool? || v.JNum?
    ensures v.JArr? ==> r == Returned(|v.items|)
    ensures r.Returned? ==> (r.value == 0 <==> !Truthy(v))
  {
    match v
    case JStr(s) => Returned(|s|)
    case JArr(items) => Returned(|items|)
    case JObj(members) => Returned(|Keys(members)|)
    case _ => Raised
  }

  /** The parts joined by `", "`. */
  function Join(parts: seq<string>): string {
    if parts == [] then []
    else if |parts| == 1 then parts[0]
    else parts[0] + ", " + Join(parts[1..])
  }

  /** `repr(v)`: a string is quoted, every other value is rendered as `str` renders it. */
  function Repr(v: Json): string
    decreases v, 1
  {
    if v.JStr? then "'" + v.s + "'" else Str(v)
  }

  /** `str(v)`, which is also what an f-string inserts for `{v}`. */
  function Str(v: Json): (r: string)
    decreases v, 0
    ensures v.JStr? ==> r == v.s
    ensures v.JNum? ==> r == IntToDecimal(v.n)
    ensures v.JNull? ==> r == "None"
  {
    match v
    case JNull => "None"
    case JBool(b) => if b then "True" else "False"
    case JNum(n) => IntToDecimal(n)
    case JStr(s) => s
    case JArr(items) =>
      "[" + Join(seq(|items|, i requires 0 <= i < |items| => Repr(items[i]))) + "]"
    case JObj(members) =>
      "{" + Join(seq(|members|, i requires 0 <= i < |members| =>
                   "'" + members[i].0 + "': " + Repr(members[i].1))) + "}"
  }

  /**
   * `v.split('-')[0] if v else default`: the text before the first `-` of a
   * non-empty string, `default` for a false value; a true value that is not
   * a string has no `split` and raises.
   */
  function YearOf(v: Json, default: string): (year: Outcome<string>)
    ensures !Truthy(v) ==> year == Returned(default)
    ensures year.Raised? <==> Truthy(v) && !v.JStr?
    ensures Truthy(v) && v.JStr? ==> (year.Returned? &&
      |year.value| <= |v.s| && year.value == v.s[..|year.value|] && '-' !in year.value &&
      (|year.value| == |v.s| || v.s[|year.value|] == '-'))
  {
    if !Truthy(v) then Returned(default)
    else if v.JStr? then Returned(BeforeFirst(v.s, '-'))
    else Raised
  }

  /**
   * `[f(x) for x in items]`, the `results.append(f(x))` loops and JavaScript's
   * `items.map(f)`, for an `f` that may raise: every result in order, or the
   * first exception.
   */
  function ListOf<T, U>(items: seq<T>, f: T -> Outcome<U>): (r: Outcome<seq<U>>)
    ensures r.Returned? ==> |r.value| == |items|
  {
    if items == [] then Returned([])
    else
      var init :- ListOf(items[..|items| - 1], f);
      var last :- f(items[|items| - 1]);
      Returned(init + [last])
  }

  /** The list keeps length and order, and fails exactly when `f` fails on some element. */
  lemma {:induction false} ListOfSpec<T, U>(items: seq<T>, f: T -> Outcome<U>)
    ensures ListOf(items, f).Returned? <==> forall i :: 0 <= i < |items| ==> f(items[i]).Returned?
    ensures ListOf(items, f).Returned? ==>
      forall i :: 0 <= i < |items| ==> f(items[i]) == Returned(ListOf(items, f).value[i])
  {
    if items != [] {
      var init := items[..|items| - 1];
      ListOfSpec(init, f);
      if ListOf(items, f).Returned? {
        forall i | 0 <= i < |items|
          ensures f(items[i]) == Returned(ListOf(items, f).value[i])
        {
          if i < |init| { assert items[i] == init[i]; }
        }
      } else if ListOf(init, f).Raised? {
        var k :| 0 <= k < |init| && f(init[k]).Raised?;
        assert init[k] == items[k];
      }
    }
  }

  /** The loop `results = []; for x in items: results.append(f(x))`, proved against ListOf. */
  method BuildList<T, U>(items: seq<T>, f: T -> Outcome<U>) returns (r: Outcome<seq<U>>)
    ensures r == ListOf(items, f)
  {
    var results: seq<U> := [];
    for i := 0 to |items|
      invariant ListOf(items[..i], f) == Returned(results)
    {
      assert items[..i + 1][..i] == items[..i];
      var result := f(items[i]);
      if result.Raised? {
        ListOfSpec(items, f);
        return Raised;
      }
      results := results + [result.value];
    }
    assert items[..|items|] == items;
    return Returned(results);
  }
}
