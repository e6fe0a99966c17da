/** The values `json.loads` produces, seen as the Python objects the tool then
    handles, and the uncaught exceptions the modelled code can raise on them. */
module Json {

  /** A decoded JSON document. `JNull` is also Python's `None`: `dict.get`
      hands back `None` for a JSON `null` exactly as for a missing key, so the
      tool cannot tell the two apart (`dict[...]` on a missing key raises
      `KeyError` instead). */
  datatype JsonValue =
    | JNull
    | JBool(b: bool)
    | JNumber(n: real)
    | JString(s: string)
    | JArray(items: seq<JsonValue>)
    | JObject(fields: map<string, JsonValue>)

  /** Python truthiness, as used by `if branch_name:` and `branch_name or "main"`. */
  predicate Truthy(v: JsonValue) {
    match v
    case JNull => false
    case JBool(b) => b
    case JNumber(n) => n != 0.0
    case JString(s) => s != ""
    case JArray(items) => items != []
    case JObject(fields) => fields != map[]
  }

  /** What `json.loads` does with a text: raise `JSONDecodeError`, or return a value. */
  datatype Decoded = DecodeError | Decoded(value: JsonValue)

  /** Exceptions the modelled code raises and does not catch. */
  datatype PyError =
    | KeyError    // a JSON object without the key that is looked up
    | TypeError   // subscripting a non-object, or a non-string argument to subprocess
    | ValueError  // a string argument to subprocess holding a NUL character, or
                  // text the token counter takes for a special token
    | OSError     // the `-o` file cannot be opened for writing
    | UnicodeDecodeError // captured `git` output that is not text in the locale's encoding
}
