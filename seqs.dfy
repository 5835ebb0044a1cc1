/** Facts about sequences that the proofs elsewhere name as single steps. */
module Seqs {

  /** Concatenation regroups freely; stated once so that a proof can name the step instead
      of leaving the solver to find it among the other facts in scope. */
  lemma Associative<T>(a: seq<T>, b: seq<T>, c: seq<T>)
    ensures a + b + c == a + (b + c)
  {
  }

  /** Both parts of a concatenation can be cut back out of it. */
  lemma Halves<T>(a: seq<T>, b: seq<T>)
    ensures (a + b)[..|a|] == a && (a + b)[|a|..] == b
  {
  }

  /** A sequence is its element at `i` with what comes before and after it. */
  lemma Around<T>(s: seq<T>, i: nat)
    requires i < |s|
    ensures s == s[..i] + ([s[i]] + s[i + 1..])
  {
  }

  /** A sequence of at least two elements is its first element, its middle and its last. */
  lemma Framed<T>(s: seq<T>)
    requires |s| >= 2
    ensures s == [s[0]] + s[1..|s| - 1] + [s[|s| - 1]]
  {
  }
}
