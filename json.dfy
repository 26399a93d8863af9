/**
 * The values the JSON codec produces and consumes, abstracted from their text form.
 * Objects are maps from key to value: key order and duplicate keys in the text are not modelled.
 */
module Json {

  datatype JsonValue =
    | JNull
    | JBool(b: bool)
    | JNumber(n: int)
    | JString(s: string)
    | JArray(elems: seq<JsonValue>)
    | JObject(fields: map<string, JsonValue>)
}
