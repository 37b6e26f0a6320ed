/** JSON values as `JSON.parse` produces them and `JSON.stringify`
    consumes them. A response or request body is modelled as the value it
    serialises, so "forwarded unchanged" means "the same value". A number
    keeps the literal it is given: nothing here computes with numbers, and
    the normalisation a parse-and-stringify applies to them is not modelled. */
module Json {
  import opened Wrappers

  datatype Json =
    | JNull
    | JBool(b: bool)
    | JNumber(literal: string)
    | JString(s: string)
    | JArray(items: seq<Json>)
    | JObject(members: seq<(string, Json)>)

  /** Property lookup `obj[key]`: the first member with that key, `None`
      for a missing key or a value that is not an object. */
  function Member(j: Json, key: string): (r: Option<Json>)
    ensures r.Some? ==> j.JObject? && exists i :: 0 <= i < |j.members| && j.members[i] == (key, r.value)
    ensures j.JObject? && (exists i :: 0 <= i < |j.members| && j.members[i].0 == key) ==> r.Some?
  {
    if j.JObject? then Lookup(j.members, key) else None
  }

  function Lookup(members: seq<(string, Json)>, key: string): (r: Option<Json>)
    ensures r.Some? ==> exists i :: 0 <= i < |members| && members[i] == (key, r.value)
    ensures (exists i :: 0 <= i < |members| && members[i].0 == key) ==> r.Some?
    decreases |members|
  {
    if members == [] then None
    else if members[0].0 == key then Some(members[0].1)
    else
      var r := Lookup(members[1..], key);
      assert forall i :: 1 <= i < |members| ==> members[i] == members[1..][i - 1];
      r
  }

  /** Lookup finds the first member carrying the key. */
  lemma {:induction false} LookupAt(members: seq<(string, Json)>, key: string, i: nat)
    requires i < |members| && members[i].0 == key
    requires forall j :: 0 <= j < i ==> members[j].0 != key
    ensures Lookup(members, key) == Some(members[i].1)
    decreases i
  {
    if i > 0 {
      LookupAt(members[1..], key, i - 1);
    }
  }
}
