/** Values the JSON parser hands to the prompt extractor, the parser's possible
    answers, and the result type the model uses in place of Python's exceptions. */
module JsonValue {

  /** What `json.loads` returns. An object is a map from key to value: the
      extractor only looks keys up, so the order of an object's members and
      its duplicate keys (the last one wins in Python) are not represented. */
  datatype Json =
    | JNull
    | JBool(b: bool)
    | JNumber(n: int)
    | JString(s: string)
    | JArray(items: seq<Json>)
    | JObject(fields: map<string, Json>)

  /** What `json.loads` does with a text: return a value, raise
      `JSONDecodeError`, or raise some other exception, such as a
      `RecursionError` on very deep nesting or a plain `ValueError` on an
      integer literal longer than Python's digit limit. */
  datatype Loaded = Parsed(value: Json) | DecodeError | OtherLoadError

  /** A value, or the exception that a Python function raised instead. */
  datatype Result<+T, +E> = Ok(value: T) | Err(error: E)
}
