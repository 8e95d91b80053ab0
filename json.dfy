/**
 * JSON values as `JSON.parse` produces them, with the two JavaScript operations the route
 * handlers apply to them: reading a property (`v.quiz`) and testing truthiness (`if (v)`).
 */
module Json {
  import opened Wrappers

  /** Numbers are kept as integers; NaN and fractions play no part in the handlers' branches. */
  datatype Json =
    | JNull
    | JBool(b: bool)
    | JNumber(n: int)
    | JString(s: string)
    | JArray(items: seq<Json>)
    | JObject(members: seq<(string, Json)>)

  /** `v[key]` on a parsed value: the last member named `key` of an object (the one
      `JSON.parse` keeps), and `undefined` (None) on a missing member or a non-object. */
  function Get(v: Json, key: string): (r: Option<Json>)
    ensures r.Some? <==> v.JObject? && exists i :: 0 <= i < |v.members| && v.members[i].0 == key
    ensures r.Some? ==> exists i :: LastNamed(v.members, key, i) && v.members[i].1 == r.value
  {
    match v
    case JObject(members) => Lookup(members, key)
    case _ => None
  }

  /** Member `i` is named `key` and no later member is. */
  ghost predicate LastNamed(members: seq<(string, Json)>, key: string, i: int) {
    0 <= i < |members| && members[i].0 == key && forall j :: i < j < |members| ==> members[j].0 != key
  }

  /** The value of the last member named `key`, scanning from the end. */
  function Lookup(members: seq<(string, Json)>, key: string): (r: Option<Json>)
    ensures r.Some? <==> exists i :: 0 <= i < |members| && members[i].0 == key
    ensures r.Some? ==> exists i :: LastNamed(members, key, i) && members[i].1 == r.value
  {
    if members == [] then None
    else if members[|members| - 1].0 == key then
      assert LastNamed(members, key, |members| - 1);
      Some(members[|members| - 1].1)
    else
      var prefix := members[..|members| - 1];
      assert forall i | LastNamed(prefix, key, i) :: LastNamed(members, key, i) && members[i] == prefix[i];
      Lookup(prefix, key)
  }

  /** JavaScript truthiness of a possibly-undefined value: `undefined`, `null`, `false`, `0`
      and `""` are falsy; every array and object, even an empty one, is truthy. */
  predicate Truthy(v: Option<Json>): (r: bool)
    ensures r <==> v.Some? && v.value !in {JNull, JBool(false), JNumber(0), JString("")}
  {
    match v
    case None => false
    case Some(JNull) => false
    case Some(JBool(b)) => b
    case Some(JNumber(n)) => n != 0
    case Some(JString(s)) => s != ""
    case Some(JArray(_)) => true
    case Some(JObject(_)) => true
  }
}
