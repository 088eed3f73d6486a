/** Parsed JSON values: what json.load produces and json.dumps consumes. */
module Json {

  /** A JSON value. Numbers are modelled as integers. */
  datatype Value =
    | Null
    | Bool(b: bool)
    | Num(n: int)
    | Str(s: string)
    | Arr(items: seq<Value>)
    | Obj(fields: map<string, Value>)
}
