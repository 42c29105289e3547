/** Shared value types of the health app model. */
module Common {

  /** A value that may be absent, standing for TypeScript's `T | null`. */
  datatype Option<+T> = None | Some(value: T)

  /** True when no element of `s` occurs twice. */
  predicate NoDuplicates<T(==)>(s: seq<T>)
  {
    forall i, j :: 0 <= i < j < |s| ==> s[i] != s[j]
  }
}
