/**
 * The JavaScript values that travel between the server and the browser as
 * JSON bodies. Numbers are kept as integers: every number in the modelled
 * code is an HTTP status code or an amount in minor units.
 */
module JsValues {

  datatype JsValue =
    | Undefined
    | Null
    | Bool(b: bool)
    | Num(n: int)
    | Str(s: string)
    | Arr(elems: seq<JsValue>)
    | Obj(members: seq<(string, JsValue)>)

  /** JavaScript truthiness of a string: only the empty string is falsy. */
  predicate Truthy(s: string) {
    s != ""
  }
}
