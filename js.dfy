/** JavaScript value conventions that the three chat handlers rely on. */
module Js {

  /** A JSON field that may be absent (`undefined` / `null`) or hold a value. */
  datatype Option<+T> = None | Some(value: T)

  /** JavaScript truthiness of a string-valued field: present and non-empty. */
  predicate Truthy(s: Option<string>) {
    s.Some? && s.value != ""
  }

  /** The `s || fallback` idiom on a string-valued field. */
  function Or(s: Option<string>, fallback: string): string {
    if Truthy(s) then s.value else fallback
  }
}
