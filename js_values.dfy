// JavaScript values as the protocol packets carry them: JSON trees plus
// `undefined`.  Objects keep their members in insertion order.

module JsValues {
  import opened Basics

  datatype Json =
    | JUndefined
    | JNull
    | JBool(b: bool)
    | JNum(n: real)
    | JStr(s: string)
    | JArr(items: seq<Json>)
    | JObj(fields: seq<Member>)

  datatype Member = Member(key: string, value: Json)

  /** JavaScript truthiness (NaN is not modelled, so every non-zero number is truthy). */
  predicate Truthy(v: Json)
  {
    match v
    case JUndefined => false
    case JNull => false
    case JBool(b) => b
    case JNum(n) => n != 0.0
    case JStr(s) => s != ""
    case _ => true
  }

  /** `typeof v == "object"` for a non-null value: arrays and objects. */
  predicate IsNonNullObject(v: Json)
  {
    v.JArr? || v.JObj?
  }

  function Keys(fields: seq<Member>): (ks: seq<string>)
    ensures |ks| == |fields|
    ensures forall i :: 0 <= i < |fields| ==> ks[i] == fields[i].key
  {
    if fields == [] then [] else [fields[0].key] + Keys(fields[1..])
  }

  predicate HasKey(fields: seq<Member>, key: string)
  {
    exists i :: 0 <= i < |fields| && fields[i].key == key
  }

  /** The value stored under `key`: the first member with that key. */
  function Get(fields: seq<Member>, key: string): (r: Option<Json>)
    ensures r.None? <==> !HasKey(fields, key)
    ensures r.Some? ==> exists i :: 0 <= i < |fields| && fields[i] == Member(key, r.value)
  {
    if fields == [] then None
    else if fields[0].key == key then Some(fields[0].value)
    else
      var rest := Get(fields[1..], key);
      assert forall i :: 0 <= i < |fields| - 1 ==> fields[1..][i] == fields[i + 1];
      rest
  }

  /** `v[key]` on any value: `undefined` unless `v` is an object with that key. */
  function Field(v: Json, key: string): (r: Json)
    ensures !v.JObj? ==> r == JUndefined
    ensures v.JObj? && HasKey(v.fields, key) ==> r == Get(v.fields, key).value
  {
    if v.JObj? then
      match Get(v.fields, key)
      case Some(x) => x
      case None => JUndefined
    else JUndefined
  }
}
