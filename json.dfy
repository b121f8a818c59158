/** The JSON values that `json.loads` produces, as Python sees them after decoding.
    An object keeps its members in textual order; a Python `dict` built from them
    maps each key to the value of its LAST occurrence and orders keys by their
    FIRST occurrence. */
module Json {
  import opened Wrappers

  datatype Json =
    | JNull
    | JBool(b: bool)
    | JNumber(n: int)
    | JString(s: string)
    | JArray(items: seq<Json>)
    | JObject(members: seq<(string, Json)>)

  /** Python truthiness of a decoded value (`if x`, `x or default`). */
  predicate Truthy(j: Json)
  {
    match j
    case JNull => false
    case JBool(b) => b
    case JNumber(n) => n != 0
    case JString(s) => s != ""
    case JArray(items) => items != []
    case JObject(members) => members != []
  }

  /** `d.get(key)` on the dict built from `members`: the value of the last
      member with that key, or nothing when no member has it. */
  function Lookup(members: seq<(string, Json)>, key: string): Option<Json>
  {
    if members == [] then None
    else if members[|members| - 1].0 == key then Some(members[|members| - 1].1)
    else Lookup(members[..|members| - 1], key)
  }

  /** The lookup finds nothing exactly when no member has the key, and
      otherwise finds the value of the last member that has it. */
  lemma {:induction false} LookupSpec(members: seq<(string, Json)>, key: string)
    ensures Lookup(members, key).None? <==> forall i :: 0 <= i < |members| ==> members[i].0 != key
    ensures Lookup(members, key).Some? ==>
      exists i :: 0 <= i < |members| && members[i] == (key, Lookup(members, key).value) &&
        forall k :: i < k < |members| ==> members[k].0 != key
  {
    if members != [] && members[|members| - 1].0 != key {
      var prefix := members[..|members| - 1];
      LookupSpec(prefix, key);
      assert forall i :: 0 <= i < |prefix| ==> prefix[i] == members[i];
    }
  }

  /** `d.get(key, default)`. */
  function GetOr(members: seq<(string, Json)>, key: string, default: Json): Json
  {
    match Lookup(members, key)
    case Some(v) => v
    case None => default
  }

  /** Some member holds key `k1` before any member holds `k2`. */
  predicate KeyBefore(members: seq<(string, Json)>, k1: string, k2: string)
  {
    exists p :: 0 <= p < |members| && members[p].0 == k1 && forall q :: 0 <= q <= p ==> members[q].0 != k2
  }

  /** Order among the keys of all but the last member still holds for all members. */
  lemma KeyBeforeExtends(members: seq<(string, Json)>, prefix: seq<string>)
    requires members != []
    requires forall a, b :: 0 <= a < b < |prefix| ==> KeyBefore(members[..|members| - 1], prefix[a], prefix[b])
    ensures forall a, b :: 0 <= a < b < |prefix| ==> KeyBefore(members, prefix[a], prefix[b])
  {
    var init := members[..|members| - 1];
    forall a, b | 0 <= a < b < |prefix| ensures KeyBefore(members, prefix[a], prefix[b]) {
      assert KeyBefore(init, prefix[a], prefix[b]);
      var p :| 0 <= p < |init| && init[p].0 == prefix[a] && forall q :: 0 <= q <= p ==> init[q].0 != prefix[b];
      assert members[p] == init[p];
    }
  }

  /** The keys of the dict built from `members`, in dict iteration order
      (first occurrence), each once. */
  function KeysInOrder(members: seq<(string, Json)>): (keys: seq<string>)
    ensures forall i, k :: 0 <= i < k < |keys| ==> keys[i] != keys[k]
    ensures forall key :: key in keys <==> exists i :: 0 <= i < |members| && members[i].0 == key
    ensures forall a, b :: 0 <= a < b < |keys| ==> KeyBefore(members, keys[a], keys[b])
  {
    if members == [] then []
    else
      var prefix := KeysInOrder(members[..|members| - 1]);
      var key := members[|members| - 1].0;
      assert forall k :: k in members[..|members| - 1] ==> k in members;
      KeyBeforeExtends(members, prefix);
      if key in prefix then prefix else
        assert forall k :: k in prefix ==> KeyBefore(members, k, key);
        prefix + [key]
  }

  /** When only one member carries a key, the lookup finds that member. */
  lemma LookupUnique(members: seq<(string, Json)>, i: int)
    requires 0 <= i < |members|
    requires forall k :: 0 <= k < |members| && k != i ==> members[k].0 != members[i].0
    ensures Lookup(members, members[i].0) == Some(members[i].1)
  {
    LookupSpec(members, members[i].0);
  }
}
