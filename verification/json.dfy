/** Parsed JSON request bodies and the JavaScript tests the route handlers
    apply to their fields. */
module Json {
  import opened Wrappers

  datatype Json =
    | JNull
    | JBool(b: bool)
    | JNum(n: real)
    | JStr(s: string)
    | JArr(items: seq<Json>)
    | JObj(fields: map<string, Json>)

  /** Reading `v.k` on a value that is not null: the field's value, or None
      for `undefined` (every non-object value has none of the fields the
      handlers read). Reading a field of `null` throws; the handlers' callers
      model that separately. */
  function Field(v: Json, k: string): (r: Option<Json>)
    ensures !v.JObj? ==> r.None?
    ensures v.JObj? ==> (r.Some? <==> k in v.fields.Keys)
  {
    if v.JObj? && k in v.fields then Some(v.fields[k]) else None
  }

  /** JavaScript truthiness of a possibly undefined JSON value. JSON carries
      no NaN, so a number is falsy exactly when it is 0. */
  predicate Truthy(v: Option<Json>)
    ensures Truthy(v) <==>
      v.Some? && v.value != JNull && v.value != JBool(false) && v.value != JNum(0.0) && v.value != JStr("")
  {
    match v
    case None => false
    case Some(JNull) => false
    case Some(JBool(b)) => b
    case Some(JNum(n)) => n != 0.0
    case Some(JStr(s)) => s != ""
    case Some(JArr(_)) => true
    case Some(JObj(_)) => true
  }

  /** `typeof v === "string"`. */
  predicate IsString(v: Option<Json>) {
    v.Some? && v.value.JStr?
  }

  /** `typeof v === "number"`. */
  predicate IsNumber(v: Option<Json>) {
    v.Some? && v.value.JNum?
  }

  /** The common guard `!v || typeof v !== "string"` fails exactly for a
      non-empty string. */
  lemma NonEmptyStringGuard(v: Option<Json>)
    ensures (Truthy(v) && IsString(v)) <==> (v.Some? && v.value.JStr? && v.value.s != "")
  {
  }
}
