/** JavaScript's `value || fallback` on the fields of a parsed JSON object.
    A field is `None` when it is missing (or `null`); a present value is
    falsy when it is `0` or the empty string. Arrays and objects are always
    truthy, so a present empty array is kept: for them `x || d` is a plain
    `Spread` of the field over the default. */
module Falsy {
  import opened Wrappers

  /** `r` is the number `x || d` gives: a present non-zero `x`, else `d`. */
  predicate NumberOr(x: Option<real>, d: real, r: real) {
    && (x.Some? && x.value != 0.0 ==> r == x.value)
    && (x.None? || x.value == 0.0 ==> r == d)
  }

  /** `r` is the whole number `x || d` gives: a present non-zero `x`, else `d`. */
  predicate WholeOr(x: Option<int>, d: int, r: int) {
    && (x.Some? && x.value != 0 ==> r == x.value)
    && (x.None? || x.value == 0 ==> r == d)
  }

  /** `r` is the string `x || d` gives: a present non-empty `x`, else `d`. */
  predicate TextOr(x: Option<string>, d: string, r: string) {
    && (x.Some? && x.value != [] ==> r == x.value)
    && (x.None? || x.value == [] ==> r == d)
  }

  /** JavaScript's `x || d` for a number field of a parsed object: a missing
      or zero value gives the default. */
  function OrNumber(x: Option<real>, d: real): (r: real)
    ensures NumberOr(x, d, r)
    ensures r == 0.0 ==> d == 0.0
  {
    if x.Some? && x.value != 0.0 then x.value else d
  }

  /** `x || d` for a whole-number field. */
  function OrWhole(x: Option<int>, d: int): (r: int)
    ensures WholeOr(x, d, r)
    ensures r == 0 ==> d == 0
  {
    if x.Some? && x.value != 0 then x.value else d
  }

  /** `x || d` for a string field: a missing or empty string gives the default. */
  function OrText(x: Option<string>, d: string): (r: string)
    ensures TextOr(x, d, r)
    ensures r == [] ==> d == []
  {
    if x.Some? && x.value != [] then x.value else d
  }

  /** `x || d` for an array or object field: any present value is truthy. */
  function OrValue<T>(x: Option<T>, d: T): (r: T)
    ensures x.None? ==> r == d
    ensures x.Some? ==> r == x.value
  {
    if x.Some? then x.value else d
  }
}
