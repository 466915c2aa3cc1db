/** Parsed JSON values: what the external reflection capability hands back as
    parameter adjustments. */
module Json {
  datatype Value =
    | Null
    | Bool(b: bool)
    | Int(i: int)
    | Float(r: real)
    | Str(s: string)
    | List(items: seq<Value>)
    | Object(fields: map<string, Value>)
}
