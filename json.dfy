/** The JSON-compatible values exchanged with the frontend (Python's `JsonDoc` and its members). */
module JsonValues {

  /** One JSON value. Numbers are modelled as integers. */
  datatype Json =
    | Null
    | Bool(b: bool)
    | Num(n: int)
    | Str(s: string)
    | Arr(items: seq<Json>)
    | Obj(fields: map<string, Json>)

  /** A JSON object: a mapping from keys to values. */
  type JsonDoc = map<string, Json>
}
