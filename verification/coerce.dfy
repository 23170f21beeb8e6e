/**
 * Value coercion and defensive payload navigation.
 *
 * Each lookup reads one key and turns the raw JSON value into the typed
 * attribute value an entity stores. A missing key or a null yields `None`
 * (or an empty sequence for list-valued attributes), never an error.
 */
module Coerce {
  import opened Options
  import opened Json

  /** `to_float`: `None` stays `None`; an integer or float becomes a float. */
  function ToFloat(v: Json): (r: Option<real>)
    ensures v == JNull ==> r == None
    ensures v.JInt? ==> r == Some(v.i as real)
    ensures v.JFloat? ==> r == Some(v.r)
  {
    match v
    case JInt(i) => Some(i as real)
    case JFloat(x) => Some(x)
    case _ => None
  }

  /** The number a raw integer or float carries. */
  function Number(v: Json): (r: real)
    requires v.JInt? || v.JFloat?
    ensures ToFloat(v) == Some(r)
  {
    if v.JInt? then v.i as real else v.r
  }

  function AsInt(v: Json): (r: Option<int>)
    ensures r.Some? <==> v.JInt?
    ensures v.JInt? ==> r.value == v.i
  {
    if v.JInt? then Some(v.i) else None
  }

  function AsBool(v: Json): (r: Option<bool>)
    ensures r.Some? <==> v.JBool?
    ensures v.JBool? ==> r.value == v.b
  {
    if v.JBool? then Some(v.b) else None
  }

  function AsStr(v: Json): (r: Option<string>)
    ensures r.Some? <==> v.JStr?
    ensures v.JStr? ==> r.value == v.s
  {
    if v.JStr? then Some(v.s) else None
  }

  /** A sub-payload read as a mapping; anything else reads as the empty mapping. */
  function AsMapping(v: Json): (r: Payload)
    ensures v.JObj? ==> r == v.fields
    ensures !v.JObj? ==> r == []
  {
    if v.JObj? then v.fields else []
  }

  /** An array-valued key; anything else reads as the empty array. */
  function AsArray(v: Json): (r: seq<Json>)
    ensures v.JArr? ==> r == v.items
    ensures !v.JArr? ==> r == []
  {
    if v.JArr? then v.items else []
  }

  /**
   * The sub-payload under `key` when it is present and non-empty: the
   * guard `if not data: return None` that precedes building a nested entity.
   */
  function NonEmptyMapping(data: Payload, key: string): (r: Option<Payload>)
    ensures r.Some? <==> Get(data, key).JObj? && |Get(data, key).fields| > 0
    ensures r.Some? ==> r.value == Get(data, key).fields
  {
    var v := Get(data, key);
    if v.JObj? && |v.fields| > 0 then Some(v.fields) else None
  }

  /**
   * A list wrapped one level deep, as in `{"ticket_orders": {"ticket_order": [...]}}`:
   * the array under `inner` inside the mapping under `outer`, or empty.
   */
  function Unwrapped(data: Payload, outer: string, inner: string): (r: seq<Json>)
    ensures Get(data, outer) == JNull ==> r == []
    ensures !Get(AsMapping(Get(data, outer)), inner).JArr? ==> r == []
    ensures Get(data, outer).JObj? && Get(Get(data, outer).fields, inner).JArr?
            ==> r == Get(Get(data, outer).fields, inner).items
  {
    AsArray(Get(AsMapping(Get(data, outer)), inner))
  }

  /** Encodes an optional float the way the API sends it: a float or null. */
  function FloatJson(x: Option<real>): (v: Json)
    ensures ToFloat(v) == x
  {
    match x
    case Some(r) => JFloat(r)
    case None => JNull
  }

  function IntJson(x: Option<int>): (v: Json)
    ensures AsInt(v) == x
  {
    match x
    case Some(i) => JInt(i)
    case None => JNull
  }

  function BoolJson(x: Option<bool>): (v: Json)
    ensures AsBool(v) == x
  {
    match x
    case Some(b) => JBool(b)
    case None => JNull
  }

  function StrJson(x: Option<string>): (v: Json)
    ensures AsStr(v) == x
  {
    match x
    case Some(s) => JStr(s)
    case None => JNull
  }
}
