/** The JSON value tree that the translator hands to the encoder.
    A Go `map[string]interface{}` becomes an object, a slice an array. */
module Json {

  datatype Value =
    | JBool(b: bool)
    | JInt(n: int)
    | JString(s: string)
    | JArray(items: seq<Value>)
    | JObject(fields: map<string, Value>)
}
