/** Small shared vocabulary: optional values and the time units of the model. */
module Common {

  /** A value that may be missing: a blank model field, `None` in Python. */
  datatype Option<T> = None | Some(value: T) {
    function GetOr(default: T): T {
      match this
      case Some(v) => v
      case None => default
    }
  }

  /** Times are whole seconds on one clock; durations are whole seconds too. */
  const HOUR: int := 3_600
  const DAY: int := 24 * HOUR

  /** No duplicates in a sequence. */
  ghost predicate Distinct<T>(s: seq<T>) {
    forall i, j :: 0 <= i < j < |s| ==> s[i] != s[j]
  }
}
