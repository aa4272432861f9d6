/** Optional values and PHP's "returned or threw" outcome. */
module Wrappers {

  datatype Option<+T> = None | Some(value: T)

  /** What a PHP call does: returns a value or raises an uncaught error. */
  datatype Outcome<+T> = Returned(value: T) | Thrown(error: string)
}
