/**
 * Parsed JSON values, as `JSON.parse` hands them to the validators.
 * An object is the sequence of its entries in property-enumeration order;
 * `Lookup` returns the value of the first entry with the given key, or `None`
 * where JavaScript would read `undefined`.
 */
module Json {
  import opened Wrappers

  datatype Json =
    | JNull
    | JBool(b: bool)
    | JNumber(text: string)
    | JString(s: string)
    | JArray(items: seq<Json>)
    | JObject(entries: seq<(string, Json)>)

  /** The run-time type zod reports for a value (`undefined` for a missing key). */
  datatype Received = Undefined | Null | Boolean | Number | Str | Array | Object

  function KindOf(v: Option<Json>): (k: Received)
    ensures k == Undefined <==> v.None?
    ensures k == Object <==> (v.Some? && v.value.JObject?)
    ensures k == Str <==> (v.Some? && v.value.JString?)
    ensures k == Array <==> (v.Some? && v.value.JArray?)
    ensures k == Boolean <==> (v.Some? && v.value.JBool?)
  {
    match v
    case None => Undefined
    case Some(JNull) => Null
    case Some(JBool(_)) => Boolean
    case Some(JNumber(_)) => Number
    case Some(JString(_)) => Str
    case Some(JArray(_)) => Array
    case Some(JObject(_)) => Object
  }

  /** Property read `obj[key]` on an object's entry sequence. */
  function Lookup(entries: seq<(string, Json)>, key: string): Option<Json> {
    if |entries| == 0 then None
    else if entries[0].0 == key then Some(entries[0].1)
    else Lookup(entries[1..], key)
  }

  /** The value read is that of the first entry carrying the key. */
  lemma {:induction false} LookupFirst(entries: seq<(string, Json)>, key: string, i: nat)
    requires i < |entries| && entries[i].0 == key
    requires forall k :: 0 <= k < i ==> entries[k].0 != key
    ensures Lookup(entries, key) == Some(entries[i].1)
  {
    if i > 0 {
      LookupFirst(entries[1..], key, i - 1);
    }
  }

  /** A key no entry carries reads as `undefined`. */
  lemma {:induction false} LookupMissing(entries: seq<(string, Json)>, key: string)
    requires forall k :: 0 <= k < |entries| ==> entries[k].0 != key
    ensures Lookup(entries, key) == None
  {
    if |entries| > 0 {
      LookupMissing(entries[1..], key);
    }
  }
}
