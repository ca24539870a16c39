/** Shared value types, and the one fact about sets that several modules count with. */
module Prelude {

  /** Identities that the source draws at random; only equality matters. */
  datatype Id = Id(n: int)

  datatype Option<+T> = None | Some(value: T)

  datatype Result<+T, +E> = Ok(value: T) | Err(error: E)

  lemma SubsetSize<T>(a: set<T>, b: set<T>)
    requires a <= b
    ensures |a| <= |b|
  {
    assert b == a + (b - a);
  }
}
