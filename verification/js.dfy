/** JavaScript values as the handlers of index.js see them after JSON.parse. */
module Js {

  datatype Option<+T> = None | Some(value: T)

  /** A string-valued property of a parsed JSON object: missing (`undefined`),
      JSON `null`, or a string. */
  datatype Field = Absent | Null | Str(s: string)

  /** JavaScript truthiness: `undefined`, `null` and the empty string are falsy. */
  predicate Truthy(f: Field)
  {
    f.Str? && f.s != ""
  }

  /** `String(f)`, which is what a template literal `${f}` produces. */
  function Stringify(f: Field): string
  {
    match f
    case Absent => "undefined"
    case Null => "null"
    case Str(s) => s
  }

  /** The value of a parameter declared `p = default`: the default replaces
      `undefined` only, a `null` argument is kept. */
  function OrDefault(f: Field, default: string): string
  {
    if f.Absent? then default else Stringify(f)
  }
}
