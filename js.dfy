/** JavaScript value conventions the handlers rely on: optional values and the
    `x || default` idiom on strings (a missing or empty string is falsy). */
module Js {

  datatype Option<+T> = None | Some(value: T)

  /** True when a possibly missing string is truthy: present and non-empty. */
  predicate Truthy(o: Option<string>) {
    o.Some? && o.value != ""
  }

  /** `o || d` for a possibly missing string. */
  function OrElse(o: Option<string>, d: string): (r: string)
    ensures Truthy(o) ==> r == o.value
    ensures !Truthy(o) ==> r == d
  {
    if Truthy(o) then o.value else d
  }
}
