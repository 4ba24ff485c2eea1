/** Order-preserving selection from a sequence: what `Array.prototype.filter`
    and `Object.entries(..).filter(..)` produce. */
module Seqs {

  /** `xs` is `ys` with some elements removed and the rest kept in order. */
  predicate IsSubsequence<T(==)>(xs: seq<T>, ys: seq<T>)
    decreases |ys|
  {
    if xs == [] then true
    else if ys == [] then false
    else if xs[0] == ys[0] then IsSubsequence(xs[1..], ys[1..])
    else IsSubsequence(xs, ys[1..])
  }

  /** Every sequence is a subsequence of itself extended at the front. */
  lemma {:induction false} SubsequenceOfTail<T>(xs: seq<T>, ys: seq<T>)
    requires |ys| > 0
    requires IsSubsequence(xs, ys[1..])
    ensures IsSubsequence(xs, ys)
    decreases |ys|, 0
  {
    if xs != [] && xs[0] == ys[0] {
      // Matching ys[0] greedily must also succeed: xs[1..] fits in ys[1..]
      // because xs does.
      SubsequenceDropFirst(xs, ys[1..]);
    }
  }

  /** Dropping the first element of a subsequence keeps it a subsequence. */
  lemma {:induction false} SubsequenceDropFirst<T>(xs: seq<T>, ys: seq<T>)
    requires xs != []
    requires IsSubsequence(xs, ys)
    ensures IsSubsequence(xs[1..], ys)
    decreases |ys|, 1
  {
    if ys == [] {
    } else if xs[0] == ys[0] {
      if xs[1..] != [] {
        SubsequenceOfTail(xs[1..], ys);
      }
    } else {
      SubsequenceDropFirst(xs, ys[1..]);
      if xs[1..] != [] {
        SubsequenceOfTail(xs[1..], ys);
      }
    }
  }

  /** The elements of a subsequence all occur in the original. */
  lemma {:induction false} SubsequenceElements<T>(xs: seq<T>, ys: seq<T>, x: T)
    requires IsSubsequence(xs, ys)
    requires x in xs
    ensures x in ys
    decreases |ys|
  {
    if xs[0] == ys[0] {
      if x != xs[0] {
        SubsequenceElements(xs[1..], ys[1..], x);
      }
    } else {
      SubsequenceElements(xs, ys[1..], x);
    }
  }
}
