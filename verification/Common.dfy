/** Identifiers, the optional value used for nullable columns, and a fact about sets. */
module Common {

  // Primary keys are compared for equality and ordered by `ORDER BY id`; nothing else is done with them.
  type Id = nat

  datatype Option<+T> = None | Some(value: T)

  lemma SubsetIsNoLarger<T>(a: set<T>, b: set<T>)
    requires a <= b
    ensures |a| <= |b|
  {
    assert b == a + (b - a);
  }
}
