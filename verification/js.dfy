/** JavaScript value semantics the storefront relies on: optional fields,
    truthiness of strings, `a || b`, and template-literal interpolation. */
module Js {

  /** A property that may be missing (`undefined`) or a query parameter that
      may be missing (`null`). */
  datatype Option<+T> = None | Some(value: T)

  /** Reading a property of a plain object such as a parsed form or JSON body. */
  function Field(obj: map<string, string>, key: string): Option<string>
  {
    if key in obj then Some(obj[key]) else None
  }

  /** JavaScript truthiness of a string that may be absent: only a present,
      non-empty string is truthy. */
  predicate Truthy(o: Option<string>)
  {
    o.Some? && o.value != ""
  }

  /** `o || fallback` where the fallback is a string literal. */
  function OrElse(o: Option<string>, fallback: string): string
  {
    if Truthy(o) then o.value else fallback
  }

  /** `a || b` where both operands may be absent: yields `b` whenever `a` is falsy. */
  function Or(a: Option<string>, b: Option<string>): Option<string>
  {
    if Truthy(a) then a else b
  }

  /** `${o}` in a template literal: an absent value prints as the given
      spelling (`"undefined"` for a missing property, `"null"` for a missing
      query parameter). */
  function Interpolate(o: Option<string>, absent: string): string
  {
    match o
    case Some(v) => v
    case None => absent
  }

  const Undefined: string := "undefined"
  const Null: string := "null"
}
