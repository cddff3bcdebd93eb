/** Small facts about sequence slicing and concatenation, stated once for any element type. */
module Sequences {

  /** A sequence is its prefix of length `n` followed by the rest. */
  lemma PrefixSuffix<T>(s: seq<T>, n: nat)
    requires n <= |s|
    ensures s[..n] + s[n..] == s
  {
  }

  /** An index past the first sequence of a concatenation falls in the second. */
  lemma ConcatRight<T>(a: seq<T>, b: seq<T>, k: nat)
    requires |a| <= k < |a| + |b|
    ensures (a + b)[k] == b[k - |a|]
  {
  }

  /** The prefix of length `i + 1` is the prefix of length `i` followed by element `i`. */
  lemma TakeSnoc<T>(s: seq<T>, i: nat)
    requires i < |s|
    ensures s[..i + 1] == s[..i] + [s[i]]
  {
  }
}
