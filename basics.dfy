/** Small value wrappers shared by the other modules. */
module Basics {

  /**
   * An optional value: `None` is an option key the caller left out or set
   * to `undefined` (the only value `$.extend` skips), or an empty jQuery
   * selection.
   */
  datatype Option<+T> = None | Some(value: T) {
    /**
     * The value, or `default` when absent: how `$.extend` lays the caller's
     * options over defaults, keeping every value that is not `undefined`
     * (`false` and `0` included).
     */
    function GetOr(default: T): T {
      match this
      case Some(v) => v
      case None => default
    }
  }

  /** The outcome of an operation that may throw. */
  datatype Result<+T, +E> = Ok(value: T) | Err(error: E)
}
