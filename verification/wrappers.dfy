/** Datatypes for values that may be missing and for calls that may fail, and iteration orders. */
module Wrappers {
  datatype Option<+T> = None | Some(value: T)
  datatype Result<+T, +E> = Ok(value: T) | Err(error: E)

  /** `order` visits every element of `s` once; the source ranges over its maps in such an
      order, which the language leaves unspecified. */
  ghost predicate Enumerates<T(!new)>(order: seq<T>, s: set<T>) {
    && (forall x :: x in order <==> x in s)
    && (forall i, j :: 0 <= i < j < |order| ==> order[i] != order[j])
  }
}
