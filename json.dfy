/** A decoded JSON document, as `json.loads` hands it to the client. */
module JsonValue {

  /** JSON values; numbers are integers in this model. */
  datatype Json =
    | JNull
    | JBool(b: bool)
    | JNum(n: int)
    | JStr(s: string)
    | JArr(items: seq<Json>)
    | JObj(fields: map<string, Json>)

  /** `field in value` for a decoded document: only an object has keys. */
  predicate HasField(value: Json, field: string) {
    value.JObj? && field in value.fields
  }

  /** True when every value of a parameter dict is a string, as `value.encode('utf-8')` needs. */
  predicate AllStrings(params: map<string, Json>) {
    forall k :: k in params ==> params[k].JStr?
  }
}
