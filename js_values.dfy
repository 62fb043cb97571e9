/**
  The few JavaScript value notions both the controller and the component
  depend on: a value that may be absent, and JavaScript truthiness of the
  string-valued fields that travel in requests and component state.
 */
module JsValues {

  datatype Option<+T> = None | Some(value: T)

  /** A string-valued field that may be `null` or `undefined` (both `Missing`). */
  datatype Nullable = Missing | Str(text: string)

  /** JavaScript truthiness of such a field: only a non-empty string is truthy. */
  predicate Truthy(v: Nullable) {
    v.Str? && v.text != ""
  }

  /** The JavaScript expression `a || b` on two such fields. */
  function Or(a: Nullable, b: Nullable): Nullable {
    if Truthy(a) then a else b
  }
}
