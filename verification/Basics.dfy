/** What several modules share. */
module Basics {

  datatype Option<+T> = None | Some(value: T)

  /** No two elements have the same key. */
  predicate DistinctBy<A, K(==)>(xs: seq<A>, key: A -> K) {
    forall i, j :: 0 <= i < j < |xs| ==> key(xs[i]) != key(xs[j])
  }

  function Join(parts: seq<string>, sep: string): string {
    if parts == [] then "" else if |parts| == 1 then parts[0] else parts[0] + sep + Join(parts[1..], sep)
  }
}
