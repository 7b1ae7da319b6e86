/** Facts about sequences that proofs name where the verifier needs a hint. */
module Seqs {

  lemma Associate<T>(a: seq<T>, b: seq<T>, c: seq<T>)
    ensures a + b + c == a + (b + c)
  {
  }

  /** A suffix is its first element and the next suffix. */
  lemma Suffix<T>(s: seq<T>, n: nat)
    requires n < |s|
    ensures s[n..] != [] && s[n..][0] == s[n] && s[n..][1..] == s[n + 1..]
  {
  }
}
