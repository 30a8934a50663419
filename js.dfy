/** Values as JavaScript hands them to the components: a field or environment
    variable that may be missing (`undefined` or `null`), and the truthiness
    tests (`!x`, `x || y`) the code applies to them. */
module Js {

  /** A value that may be missing: `None` stands for `undefined` or `null`. */
  datatype Option<+T> = None | Some(value: T)

  /** JavaScript truthiness of a string-or-missing value: `undefined`, `null`
      and the empty string are falsy, every other string is truthy. */
  predicate Truthy(v: Option<string>)
  {
    v.Some? && v.value != ""
  }

  /** `v || ''`: the value itself when truthy, otherwise the empty string. */
  function OrEmpty(v: Option<string>): (r: string)
    ensures r == "" <==> !Truthy(v)
    ensures r != "" ==> v == Some(r)
  {
    if Truthy(v) then v.value else ""
  }

  /** `a || b` on two string-or-missing values. */
  function OrElse(a: Option<string>, b: Option<string>): (r: Option<string>)
    ensures Truthy(a) ==> r == a
    ensures !Truthy(a) ==> r == b
  {
    if Truthy(a) then a else b
  }

  /** `${v}` in a template literal: a missing value is rendered as the text
      "undefined". */
  function Interpolate(v: Option<string>): (r: string)
    ensures v.Some? ==> r == v.value
    ensures v.None? ==> r == "undefined"
  {
    match v
    case Some(s) => s
    case None => "undefined"
  }
}
