/** Sequences without repetition. */
module Collections {
  predicate Distinct<T(==)>(q: seq<T>) {
    forall j, k :: 0 <= j < k < |q| ==> q[j] != q[k]
  }
}
