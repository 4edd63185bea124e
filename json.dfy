/**
 * The JSON values the tool receives from `json.loads`. Parsing and pretty
 * printing are done by Python's `json` library, which is not part of this
 * model: callers pass them in as functions (`Parser`, `Dumper`).
 */
module Json {

  /** A decoded JSON value. A number carries the text Python's `str()` gives for it. */
  datatype Value =
    | JNull
    | JBool(b: bool)
    | JNumber(text: string)
    | JString(s: string)
    | JArray(items: seq<Value>)
    | JObject(fields: map<string, Value>)

  /** What `json.loads` does with a text: a value, a `JSONDecodeError`, or another exception (such as `RecursionError`). */
  datatype ParseResult =
    | Parsed(value: Value)
    | Invalid(message: string)
    | Crashed(message: string)

  /** `json.loads`. */
  type Parser = string -> ParseResult

  /** `json.dumps` (with whatever indentation the caller uses). */
  type Dumper = Value -> string
}
