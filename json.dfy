/**
 * JSON values as the browser's JSON.parse produces them and JSON.stringify
 * consumes them. Objects keep their members in insertion order, which is the
 * order JSON.stringify writes them in. Numbers are kept as integers: nothing
 * in the client inspects a number.
 */
module Json {
  import opened Wrappers

  datatype Json =
    | JNull
    | JBool(b: bool)
    | JNumber(n: int)
    | JString(s: string)
    | JArray(items: seq<Json>)
    | JObject(members: seq<(string, Json)>)

  /** The value stored under `key` in an ordered list of named entries (object members or headers). */
  function Lookup<V>(entries: seq<(string, V)>, key: string): (r: Option<V>)
    ensures r.None? <==> forall i :: 0 <= i < |entries| ==> entries[i].0 != key
    ensures r.Some? ==> exists i :: 0 <= i < |entries| && entries[i] == (key, r.value)
  {
    if |entries| == 0 then None
    else if entries[0].0 == key then Some(entries[0].1)
    else
      var r := Lookup(entries[1..], key);
      assert forall i :: 1 <= i < |entries| ==> entries[i] == entries[1..][i - 1];
      r
  }

  /** A list of strings as a JSON array of JSON strings, order preserved. */
  function Strings(names: seq<string>): (items: seq<Json>)
    ensures |items| == |names|
    ensures forall i :: 0 <= i < |names| ==> items[i] == JString(names[i])
  {
    if names == [] then [] else [JString(names[0])] + Strings(names[1..])
  }

  /** Reads a JSON array back as a list of strings; fails on any non-string item. */
  function AsStrings(items: seq<Json>): (r: Option<seq<string>>)
  {
    if items == [] then Some([])
    else match (items[0], AsStrings(items[1..]))
      case (JString(s), Some(rest)) => Some([s] + rest)
      case _ => None
  }

  /** Reading back an encoded list of strings yields exactly that list. */
  lemma {:induction false} AsStringsOfStrings(names: seq<string>)
    ensures AsStrings(Strings(names)) == Some(names)
  {
    if names != [] {
      AsStringsOfStrings(names[1..]);
      assert Strings(names)[1..] == Strings(names[1..]);
      assert [names[0]] + names[1..] == names;
    }
  }
}
