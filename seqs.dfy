/** Two facts about sequence concatenation that the proofs invoke by name. */
module Seqs {

  /** Concatenation regroups. */
  lemma ConcatAssoc<T>(a: seq<T>, b: seq<T>, c: seq<T>)
    ensures (a + b) + c == a + (b + c)
  {
  }

  /** A property of every element holds of every element of a concatenation. */
  lemma AllConcat<T>(a: seq<T>, b: seq<T>, p: T -> bool)
    requires forall j :: 0 <= j < |a| ==> p(a[j])
    requires forall j :: 0 <= j < |b| ==> p(b[j])
    ensures forall j :: 0 <= j < |a + b| ==> p((a + b)[j])
  {
  }
}
