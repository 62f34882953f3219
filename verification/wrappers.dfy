/** Optional values, used wherever the app has `undefined`, `null` or a regex
    match that may be absent. */
module Wrappers {

  datatype Option<+T> = None | Some(value: T) {

    /** The carried value, or `default` when there is none. */
    function GetOr(default: T): T {
      match this
      case Some(v) => v
      case None => default
    }
  }

  /** One field of an object spread `{ ...before, ...patch }`: `after` is the
      patch's value when the patch carries the field, and `before` otherwise. */
  predicate Spread<T(==)>(patch: Option<T>, before: T, after: T) {
    && (patch.Some? ==> after == patch.value)
    && (patch.None? ==> after == before)
  }
}
