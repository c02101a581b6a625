/** JSON values, as `JSON.stringify` writes them and `JSON.parse` reads them
    back. The textual syntax is not modelled: a value stands for its text. */
module Json {
  import opened Wrappers

  datatype Json =
    | JNull
    | JBool(b: bool)
    | JNumber(n: int)
    | JString(s: string)
    | JArray(items: seq<Json>)
    | JObject(members: seq<(string, Json)>)

  /** The member `key` of an object's member list; when a key repeats,
      `JSON.parse` keeps the last occurrence. */
  function Get(members: seq<(string, Json)>, key: string): Option<Json> {
    if members == [] then None
    else if members[|members| - 1].0 == key then Some(members[|members| - 1].1)
    else Get(members[..|members| - 1], key)
  }

  /** A member is found iff its key occurs, and what is found is a value the
      key is paired with. */
  lemma {:induction false} GetFound(members: seq<(string, Json)>, key: string)
    ensures Get(members, key).Some? <==> exists i :: 0 <= i < |members| && members[i].0 == key
    ensures Get(members, key).Some? ==> exists i :: 0 <= i < |members| && members[i] == (key, Get(members, key).value)
  {
    if members != [] && members[|members| - 1].0 != key {
      var init := members[..|members| - 1];
      GetFound(init, key);
      if i :| 0 <= i < |members| && members[i].0 == key {
        assert init[i] == members[i];
      }
      if Get(init, key).Some? {
        var i :| 0 <= i < |init| && init[i] == (key, Get(init, key).value);
        assert members[i] == init[i];
      }
    }
  }

  /** When the key occurs exactly once, that occurrence is the member. */
  lemma {:induction false} GetUnique(members: seq<(string, Json)>, i: int, key: string)
    requires 0 <= i < |members| && members[i].0 == key
    requires forall j :: 0 <= j < |members| && j != i ==> members[j].0 != key
    ensures Get(members, key) == Some(members[i].1)
  {
    if i < |members| - 1 {
      GetUnique(members[..|members| - 1], i, key);
    }
  }

  /** The value of a string member, if the member exists and is a string. */
  function GetString(members: seq<(string, Json)>, key: string): Option<string> {
    match Get(members, key)
    case Some(JString(s)) => Some(s)
    case _ => None
  }

  /** The value of a number member, if the member exists and is a number. */
  function GetNumber(members: seq<(string, Json)>, key: string): Option<int> {
    match Get(members, key)
    case Some(JNumber(n)) => Some(n)
    case _ => None
  }
}
