/**
 * Values shared by the models: Python's `None`, the truthiness that the
 * `x or default` idiom relies on, and the identifiers of stored rows.
 */
module Common {

  /** A Python value that may be `None`. */
  datatype Option<T> = None | Some(value: T)

  /** Primary keys of stored rows; Django compares model instances by them. */
  type UserId = nat
  type EventId = nat
  type CategoryId = nat
  type VenueId = nat

  /** A `datetime`, as an instant on a fixed time line. */
  type DateTime = int

  /** Python truthiness of an optional string: `None` and `""` are falsy. */
  predicate StrTruthy(x: Option<string>)
  {
    x.Some? && x.value != ""
  }

  /**
   * Python truthiness of an optional object whose class defines neither
   * `__bool__` nor `__len__` (a model instance, a `datetime`): only `None`
   * is falsy.
   */
  predicate ObjTruthy<T>(x: Option<T>)
  {
    x.Some?
  }

  /** `x or fallback` for an optional string. */
  function StrOr(x: Option<string>, fallback: string): string
  {
    if x.Some? && x.value != "" then x.value else fallback
  }

  /** `x or fallback` for an optional object that is truthy unless `None`. */
  function ObjOr<T>(x: Option<T>, fallback: T): T
  {
    match x
    case Some(v) => v
    case None => fallback
  }
}
