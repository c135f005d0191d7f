/** Sequence notions shared by the modules. */
module Seqs {

  /** `s` is an order-preserving subsequence of `t`: `s` is `t` with some
      elements left out. */
  predicate IsSubseq<T(==)>(s: seq<T>, t: seq<T>)
    decreases |t|
  {
    s == [] || (t != [] && ((s[0] == t[0] && IsSubseq(s[1..], t[1..])) || IsSubseq(s, t[1..])))
  }
}
