/**
 * The value `JSONSerialization.jsonObject` hands to the client's decoder
 * (frontend/Contextify/ContentView.swift), and the two conditional casts the
 * decoder applies to it.
 */
module Json {
  import opened Wrappers

  /** A parsed JSON value. Numbers are kept as integers: no decoded field reads their value. */
  datatype JValue =
    | JNull
    | JBool(b: bool)
    | JNumber(n: int)
    | JString(s: string)
    | JArray(items: seq<JValue>)
    | JObject(fields: map<string, JValue>)

  /** A JSON object, `[String: Any]`. */
  type JObj = map<string, JValue>

  /** `obj[key] as? String ?? fallback`: the string stored under `key`, or `fallback` when it is absent or not a string. */
  function StringOr(obj: JObj, key: string, fallback: string): string
  {
    if key in obj && obj[key].JString? then obj[key].s else fallback
  }

  /** The fields of each object in `items`, in order. */
  function FieldsOf(items: seq<JValue>): (r: seq<JObj>)
    requires forall i :: 0 <= i < |items| ==> items[i].JObject?
    ensures |r| == |items|
    ensures forall i :: 0 <= i < |items| ==> JObject(r[i]) == items[i]
  {
    if items == [] then [] else [items[0].fields] + FieldsOf(items[1..])
  }

  /**
   * `obj[key] as? [[String: Any]]`: the cast succeeds only for an array all of
   * whose elements are objects; one element of another kind makes it fail.
   */
  function ObjectsAt(obj: JObj, key: string): (r: Option<seq<JObj>>)
    ensures r.Some? <==>
      key in obj && obj[key].JArray? && forall i :: 0 <= i < |obj[key].items| ==> obj[key].items[i].JObject?
    ensures r.Some? ==>
      (|r.value| == |obj[key].items| && forall i :: 0 <= i < |r.value| ==> JObject(r.value[i]) == obj[key].items[i])
  {
    if key in obj && obj[key].JArray? && forall i :: 0 <= i < |obj[key].items| ==> obj[key].items[i].JObject?
    then Some(FieldsOf(obj[key].items))
    else None
  }

  /** `obj[key] as? [[String: Any]] ?? []` */
  function ObjectsOrEmpty(obj: JObj, key: string): seq<JObj>
  {
    match ObjectsAt(obj, key)
    case Some(objs) => objs
    case None => []
  }
}
