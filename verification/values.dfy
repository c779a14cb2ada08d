/**
  JSON-like values: what the application state and the saved scenarios are
  made of. A record is a JavaScript object with string keys.
 */
module Values {

  datatype Value =
    | Null
    | Bool(b: bool)
    | Number(n: real)
    | Str(s: string)
    | List(elems: seq<Value>)
    | Object(fields: map<string, Value>)

  type Record = map<string, Value>
}
