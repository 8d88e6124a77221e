/** A parsed JSON document: what an HTTP request body or an AI provider's
    reply is before a schema has looked at it. */
module Json {

  datatype Value =
    | Null
    | Bool(b: bool)
    | Num(n: real)
    | Str(s: string)
    | Arr(elems: seq<Value>)
    | Obj(fields: map<string, Value>)
}
