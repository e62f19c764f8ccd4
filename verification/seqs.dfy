/** Small facts about sequences that the loops over the tracked records and the effect log rely on. */
module Sequences {

  /** Taking one more element of a sequence appends that element. */
  lemma PrefixStep<T>(s: seq<T>, k: nat)
    requires k < |s|
    ensures s[..k + 1] == s[..k] + [s[k]]
  {
  }

  /** Concatenation is associative. */
  lemma AppendAssoc<T>(a: seq<T>, b: seq<T>, c: seq<T>)
    ensures a + b + c == a + (b + c)
  {
  }

  /** Appending two elements one at a time appends them as a pair. */
  lemma AppendPair<T>(a: seq<T>, b: seq<T>, x: T, y: T)
    ensures a + b + [x] + [y] == a + (b + [x, y])
  {
  }
}
