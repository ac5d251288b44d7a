/** Order and duplicate facts about sequences, shared by the selection list and the duration total. */
module Seqs {

  /** `a` is what remains of `b` after deleting some of its elements; the rest keep their order. */
  predicate IsSubsequence<T(==)>(a: seq<T>, b: seq<T>)
    decreases |b|
  {
    if a == [] then true
    else if b == [] then false
    else if a[0] == b[0] then IsSubsequence(a[1..], b[1..])
    else IsSubsequence(a, b[1..])
  }

  /** No value occurs twice: the head is not repeated in the tail, and so on down the list. */
  predicate NoDup<T(==)>(xs: seq<T>) {
    xs == [] || (xs[0] !in xs[1..] && NoDup(xs[1..]))
  }

  /** Appending a value the list does not hold keeps it duplicate-free. */
  lemma {:induction false} NoDupAppend<T>(xs: seq<T>, x: T)
    ensures NoDup(xs) && x !in xs ==> NoDup(xs + [x])
  {
    if xs != [] && NoDup(xs) && x !in xs {
      assert (xs + [x])[1..] == xs[1..] + [x];
      NoDupAppend(xs[1..], x);
    }
  }

  /** The set of values occurring in `xs`. */
  function Elems<T>(xs: seq<T>): set<T> {
    set x | x in xs
  }
}
