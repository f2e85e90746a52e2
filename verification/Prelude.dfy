/** Vocabulary shared by every module: optional values, row identifiers and instants. */
module Prelude {
  datatype Option<+T> = None | Some(value: T)

  // A UUID; only equality and the total order of the database matter.
  type Id = nat

  // An instant or a duration, in seconds.
  type Time = real

  /** The maps agree except, possibly, on what b holds at k. */
  ghost predicate OnlyAt<K, V>(a: map<K, V>, b: map<K, V>, k: K) {
    b == a || (k in b && b == a[k := b[k]])
  }
}
