/** The free-form JSON bags (`metadata`, `settings`) that records carry. */
module Json {

  /** A JSON value. Numbers are integers; a timestamp rendered by `toISOString()`
      is kept as the instant it denotes, in milliseconds. */
  datatype Value =
    | JNull
    | JBool(b: bool)
    | JNum(n: int)
    | JStr(s: string)
    | JDate(ms: int)
    | JArr(items: seq<Value>)
    | JObj(fields: map<string, Value>)

  /** A JSON object. The spread `{...a, ...b}` is the map union `a + b`. */
  type Object = map<string, Value>
}
