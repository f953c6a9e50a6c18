/** JavaScript values as the receiver sees them: values produced by the JSON
    body parser, optional strings (environment variables and request headers),
    and the truthiness rules that the source's `if (!x)` guards rely on. */
module Js {

  datatype Option<+T> = None | Some(value: T)

  /** A value produced by JSON.parse. Numbers are kept as reals, so the
      `Infinity` that JSON.parse gives for an out-of-range literal such as
      `1e400` is not representable. */
  datatype Json =
    | JNull
    | JBool(b: bool)
    | JNum(n: real)
    | JStr(s: string)
    | JArr(items: seq<Json>)
    | JObj(fields: map<string, Json>)

  /** `!!v` for a JSON-derived value; `None` stands for `undefined`.
      `null`, `false`, `0` and `""` are falsy, every array and object is truthy. */
  predicate Truthy(v: Option<Json>) {
    match v
    case None => false
    case Some(JNull) => false
    case Some(JBool(b)) => b
    case Some(JNum(n)) => n != 0.0
    case Some(JStr(s)) => s != ""
    case Some(JArr(_)) => true
    case Some(JObj(_)) => true
  }

  /** `!!s` for an environment variable or a header value: both `undefined`
      and the empty string count as unset. */
  predicate IsSet(s: Option<string>) {
    s.Some? && s.value != ""
  }

  /** `o[key]` on a parsed JSON object, `undefined` when the key is absent. */
  function Field(o: map<string, Json>, key: string): Option<Json> {
    if key in o then Some(o[key]) else None
  }

  /** `v?.key`: `undefined` unless `v` is an object that holds `key`. The keys
      the receiver reads (`customer`, `transaction`, `id`) are not properties
      of any built-in prototype, so strings and arrays give `undefined` too. */
  function Member(v: Option<Json>, key: string): Option<Json> {
    match v
    case Some(JObj(fields)) => Field(fields, key)
    case _ => None
  }

  /** Whether converting a parsed value to a primitive throws a TypeError, as
      a template literal `${v}` or an arithmetic operator does. An object
      with its own `toString` key throws: that value is never callable, and
      the inherited `valueOf` returns the object itself. Other objects give
      `[object Object]`; an array throws exactly when one of its items does,
      since its `toString` joins the items; every other value converts. */
  predicate ConversionThrows(v: Json)
    decreases v
  {
    match v
    case JObj(fields) => "toString" in fields
    case JArr(items) => exists i :: 0 <= i < |items| && ConversionThrows(items[i])
    case _ => false
  }

  /** Some value in a list of logged values (`undefined` included) throws
      when it is converted. */
  predicate AnyConversionThrows(logged: seq<Option<Json>>) {
    exists i :: 0 <= i < |logged| && logged[i].Some? && ConversionThrows(logged[i].value)
  }
}
