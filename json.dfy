/** Decoded JSON values as `json.loads` produces them (None, bool, int, str,
    list, dict), with the Python operations the client applies to them:
    truthiness, `d[key]` and `d.get(key, default)`. A dict keeps its keys
    in insertion order, so an object is a sequence of members. */
module Json {
  import opened Wrappers

  datatype Json =
    | JNull
    | JBool(b: bool)
    | JInt(i: int)
    | JString(s: string)
    | JArray(items: seq<Json>)
    | JObject(members: seq<Member>)

  datatype Member = Member(key: string, value: Json)

  /** Python's `bool(v)`: None, False, 0 and empty containers are false. */
  predicate Truthy(j: Json) {
    match j
    case JNull => false
    case JBool(b) => b
    case JInt(i) => i != 0
    case JString(s) => s != ""
    case JArray(items) => items != []
    case JObject(members) => members != []
  }

  /** Dict lookup `d[key]` over the members of an object; None stands for
      the KeyError raised on a missing key. When a key occurs more than
      once the last occurrence wins, as it does in the dict `json.loads`
      builds. */
  function Find(members: seq<Member>, key: string): (r: Option<Json>)
    ensures r.None? <==> forall k :: 0 <= k < |members| ==> members[k].key != key
    ensures r.Some? ==> exists k :: 0 <= k < |members| && members[k] == Member(key, r.value)
                                 && forall m :: k < m < |members| ==> members[m].key != key
    decreases |members|
  {
    if members == [] then None
    else if members[|members| - 1].key == key then Some(members[|members| - 1].value)
    else
      var init := members[..|members| - 1];
      assert forall k :: 0 <= k < |init| ==> init[k] == members[k];
      Find(init, key)
  }

  /** `d.get(key, default)`. */
  function GetOr(members: seq<Member>, key: string, default: Json): (r: Json)
    ensures (forall k :: 0 <= k < |members| ==> members[k].key != key) ==> r == default
  {
    match Find(members, key)
    case Some(v) => v
    case None => default
  }
}
