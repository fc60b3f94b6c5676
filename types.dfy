/** Small value types shared by every module of the relay model. */
module Types {

  /** A value that may be absent (a C# `null` reference). */
  datatype Option<T> = None | Some(value: T)

  /** One octet of a TCP payload. */
  type byte = b: int | 0 <= b < 256

  /** True when no element of `s` occurs twice. */
  predicate NoDuplicates<T(==)>(s: seq<T>)
  {
    forall i, j :: 0 <= i < j < |s| ==> s[i] != s[j]
  }
}
