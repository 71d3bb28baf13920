/** The decoded, untyped data a request is built from: what a JSON decoder
    hands to the request classes (floating-point numbers are not modelled). */
module Values {

  datatype Value =
    | Null
    | Bool(b: bool)
    | Int(i: int)
    | Str(s: string)
    | List(elems: seq<Value>)
    | Object(fields: map<string, Value>)
}
