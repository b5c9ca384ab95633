/**
 * Shared vocabulary: optional values, JavaScript truthiness of optional
 * strings and numbers, and a JSON-like value type for request bodies and
 * response payloads.
 */
module Common {

  /** `None` stands for JavaScript's `undefined` or `null`. */
  datatype Option<+T> = None | Some(value: T)

  /** JavaScript truthiness of an optional string: present and non-empty. */
  predicate TruthyStr(s: Option<string>)
  {
    s.Some? && s.value != ""
  }

  /** JavaScript truthiness of an optional number: present and non-zero. */
  predicate TruthyInt(n: Option<int>)
  {
    n.Some? && n.value != 0
  }

  /** A JSON-like value. `Undefined` is a key whose value is `undefined`. */
  datatype Value =
    | Undefined
    | Null
    | Bool(b: bool)
    | Num(n: int)
    | Str(s: string)
    | Arr(items: seq<Value>)
    | Obj(fields: map<string, Value>)

  /** A plain object with string keys, such as `req.body` or a response body. */
  type Payload = map<string, Value>
}
