/** What all other modules are written with: two result-carrying datatypes and a fact about sequences. */
module Wrappers {

  datatype Option<+T> = None | Some(value: T)

  /** An operation that returns normally, or raises. */
  datatype Result<+T, +E> = Success(value: T) | Failure(error: E)

  lemma Associative<T>(a: seq<T>, b: seq<T>, c: seq<T>)
    ensures a + b + c == a + (b + c)
  {
  }
}
