/** A value `JSON.parse` can produce. */
module Json {
  import opened Wrappers

  datatype Json =
    | JNull
    | JBool(b: bool)
    | JNumber(n: real)
    | JString(s: string)
    | JArray(items: seq<Json>)
    | JObject(members: seq<(string, Json)>)

  /** The value of property `key`: `JSON.parse` keeps the last of repeated keys. */
  function Get(members: seq<(string, Json)>, key: string): (r: Option<Json>)
    ensures r.None? <==> forall i :: 0 <= i < |members| ==> members[i].0 != key
    ensures r.Some? ==> exists i :: 0 <= i < |members| && members[i] == (key, r.value)
    decreases |members|
  {
    if |members| == 0 then None
    else if members[|members| - 1].0 == key then Some(members[|members| - 1].1)
    else Get(members[..|members| - 1], key)
  }

  /** A later member shadows an earlier one with the same key. */
  lemma GetLastWins(members: seq<(string, Json)>, key: string, v: Json)
    ensures Get(members + [(key, v)], key) == Some(v)
  {
  }

  /** Members with other keys play no part. */
  lemma {:induction false} GetIgnoresOthers(members: seq<(string, Json)>, other: seq<(string, Json)>, key: string)
    requires forall i :: 0 <= i < |other| ==> other[i].0 != key
    ensures Get(members + other, key) == Get(members, key)
    decreases |other|
  {
    if |other| > 0 {
      var all := members + other;
      assert all[..|all| - 1] == members + other[..|other| - 1];
      GetIgnoresOthers(members, other[..|other| - 1], key);
    } else {
      assert members + other == members;
    }
  }
}
