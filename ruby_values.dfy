/**
 * The Ruby values that flow through the backend: option values read from
 * the Hiera configuration, values decoded from a secret, and the binary
 * payload of a secret.
 */
module RubyValues {

  datatype Value =
    | Nil
    | Bool(b: bool)
    | Int(i: int)
    | Float(x: real)
    | Str(s: string)
    | Binary(bytes: seq<bv8>)
    | Arr(elems: seq<Value>)
    | Hash(entries: seq<(string, Value)>)

  /** Ruby truthiness: `nil` and `false` are the only falsy values. */
  predicate Truthy(v: Value) {
    !(v.Nil? || v == Bool(false))
  }
}
