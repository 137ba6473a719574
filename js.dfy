/**
 * JavaScript truthiness for the optional string values the application
 * reads from request bodies, tokens and browser storage: `undefined`,
 * `null` and `""` are falsy, every other string is truthy.
 */
module Js {
  import opened Wrappers

  predicate Truthy(v: Option<string>) {
    v.Some? && v.value != ""
  }

  /** `a || b` on optional strings. */
  function Or(a: Option<string>, b: Option<string>): Option<string> {
    if Truthy(a) then a else b
  }

  /** `a || d` where `d` is a string literal. */
  function OrElse(a: Option<string>, d: string): string {
    if Truthy(a) then a.value else d
  }
}
