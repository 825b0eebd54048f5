/** Optional values and the three outcomes of reading a saved browser entry. */
module Wrappers {

  /** `null`/`undefined` in the application becomes None. */
  datatype Option<+T> = None | Some(value: T) {
    function GetOr(default: T): T
    {
      match this
      case Some(v) => v
      case None => default
    }
  }

  /** What a `localStorage.getItem` followed by `JSON.parse` yields: no entry,
      an entry that does not parse, or a parsed value. */
  datatype Stored<+T> = Missing | Corrupt | Present(value: T)
}
