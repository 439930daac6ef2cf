/** Optional JSON fields, and calls that may raise. */
module Outcomes {

  datatype Option<+T> = None | Some(value: T) {
    function GetOr(default: T): T {
      match this
      case Some(v) => v
      case None => default
    }
  }

  /** `if condition: findings.append(finding)` */
  function When<T>(condition: bool, finding: T): seq<T> { if condition then [finding] else [] }

  /** Python either returns a value or raises. */
  datatype Outcome<+T> = Returned(value: T) | Raised
}
