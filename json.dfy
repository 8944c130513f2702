/** Untrusted values as `JSON.parse` produces them, and JavaScript property access on them. */
module JsonValues {
  import opened Wrappers

  datatype Json =
    | JNull
    | JBool(b: bool)
    | JNumber(n: real)
    | JString(s: string)
    | JArray(elems: seq<Json>)
    | JObject(fields: map<string, Json>)

  /** `isRecord`: `typeof value === 'object' && value !== null`, which arrays satisfy too. */
  predicate IsRecord(v: Json) {
    v.JObject? || v.JArray?
  }

  /**
   * The property read `v.k`, with `None` for `undefined`. The only properties an array has are
   * `length` and its indices, and the model never reads those, so an array yields `None`.
   */
  function Get(v: Json, k: string): Option<Json> {
    if v.JObject? && k in v.fields then Some(v.fields[k]) else None
  }

  /** `o.k` for an `o` that may itself be `undefined`. */
  function GetIn(o: Option<Json>, k: string): Option<Json> {
    if o.Some? then Get(o.value, k) else None
  }

  /** `v.section.k`. */
  function At(v: Json, section: string, k: string): Option<Json> {
    GetIn(Get(v, section), k)
  }

  /** `typeof o === 'string'`. */
  predicate IsText(o: Option<Json>) {
    o.Some? && o.value.JString?
  }

  /** `typeof o === 'boolean'`. */
  predicate IsFlag(o: Option<Json>) {
    o.Some? && o.value.JBool?
  }

  /** `isRecord(o)`. */
  predicate IsRecordValue(o: Option<Json>) {
    o.Some? && IsRecord(o.value)
  }

  /** `Array.isArray(o)`. */
  predicate IsArrayValue(o: Option<Json>) {
    o.Some? && o.value.JArray?
  }
}
