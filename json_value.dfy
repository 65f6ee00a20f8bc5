/**
  Decoded JSON replies of the server's REST API, as `json.loads` hands them to
  the check: the Python value, its truthiness, and subscripting by key.
 */
module JsonValue {
  import opened Wrappers

  /** Numbers are integers here (see README, "Left out"). */
  datatype Json =
    | JNull
    | JBool(b: bool)
    | JNum(n: int)
    | JStr(s: string)
    | JArray(items: seq<Json>)
    | JObject(members: map<string, Json>)

  /**
    Python's `bool(value)` for a decoded JSON value: false exactly for None,
    False, 0, the empty string, the empty list and the empty dict.
   */
  predicate Truthy(j: Json)
    ensures Truthy(j) <==>
      !(j == JNull || j == JBool(false) || j == JNum(0) || j == JStr("") || j == JArray([]) || j == JObject(map[]))
  {
    match j
    case JNull => false
    case JBool(b) => b
    case JNum(n) => n != 0
    case JStr(s) => |s| > 0
    case JArray(items) => |items| > 0
    case JObject(members) => |members| > 0
  }

  /**
    `value[key]`: defined only on an object holding the key; everything else
    raises (KeyError, or TypeError on a non-object).
   */
  function Get(j: Json, key: string): (r: Option<Json>)
    ensures r.Some? <==> j.JObject? && key in j.members
    ensures r.Some? ==> r.value == j.members[key]
  {
    if j.JObject? && key in j.members then Some(j.members[key]) else None
  }

  /** `value[k0][k1]...`: the first missing step makes the whole lookup fail. */
  function GetPath(j: Json, path: seq<string>): (r: Option<Json>)
    ensures |path| == 0 ==> r == Some(j)
    ensures |path| == 1 ==> r == Get(j, path[0])
    ensures |path| == 2 ==> r == (match Get(j, path[0]) case None => None case Some(c) => Get(c, path[1]))
    decreases |path|
  {
    if |path| == 0 then Some(j)
    else
      match Get(j, path[0])
      case None => None
      case Some(child) => GetPath(child, path[1..])
  }

  /** Looking up `p + q` is looking up `p`, then `q` in what that found. */
  lemma {:induction false} GetPathAppend(j: Json, p: seq<string>, q: seq<string>)
    ensures GetPath(j, p + q) ==
      match GetPath(j, p)
      case None => None
      case Some(c) => GetPath(c, q)
    decreases |p|
  {
    if |p| == 0 {
      assert p + q == q;
    } else {
      assert (p + q)[0] == p[0];
      assert (p + q)[1..] == p[1..] + q;
      match Get(j, p[0])
      case None =>
      case Some(child) => GetPathAppend(child, p[1..], q);
    }
  }
}
