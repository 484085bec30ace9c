/**
 * Small value wrappers shared by every module.
 *  - Option<T>: a JavaScript value that may be null/undefined (a nullable column, an optional prop).
 *  - Byte: one octet of a byte buffer.
 *  - Update<T>: one field of a partial update object: either left out of the object (Keep)
 *    or present with a value that overwrites the stored one (Set).
 */
module Wrappers {

  /** An octet, as the integers 0..255. */
  type Byte = b: int | 0 <= b < 256

  datatype Option<+T> = None | Some(value: T) {
    function GetOr(default: T): T {
      match this
      case Some(v) => v
      case None => default
    }
  }

  datatype Update<+T> = Keep | Set(value: T) {
    /** The value after applying this field of a patch to `current`. */
    function Apply(current: T): T {
      match this
      case Set(v) => v
      case Keep => current
    }
  }

  /** JavaScript truthiness of a nullable string: null, undefined and "" are falsy. */
  predicate Truthy(s: Option<string>) {
    s.Some? && s.value != ""
  }

  /** `s || fallback` for a nullable string. */
  function OrElse(s: Option<string>, fallback: string): (r: string)
    ensures Truthy(s) ==> r == s.value
    ensures !Truthy(s) ==> r == fallback
  {
    if Truthy(s) then s.value else fallback
  }
}
