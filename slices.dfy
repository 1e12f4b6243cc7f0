/**
 * Facts about concatenation and prefixes of sequences, stated once so that the proofs that
 * need them call a lemma instead of re-deriving sequence equality.
 */
module Slices {

  lemma AppendAssoc<T>(a: seq<T>, b: seq<T>, c: seq<T>)
    ensures (a + b) + c == a + (b + c)
  {
  }

  /** The prefix of full length is the whole sequence. */
  lemma TakeAll<T>(s: seq<T>)
    ensures s[..|s|] == s
  {
  }

  /** A prefix of a prefix is a prefix. */
  lemma TakeTake<T>(s: seq<T>, i: nat, j: nat)
    requires i <= j <= |s|
    ensures s[..j][..i] == s[..i]
  {
  }

  /** The longer prefix is the shorter one and the next element. */
  lemma TakeNext<T>(s: seq<T>, i: nat)
    requires i < |s|
    ensures s[..i + 1] == s[..i] + [s[i]]
  {
  }

  /** Appending keeps the original as a prefix. */
  lemma TakeAppended<T>(s: seq<T>, t: seq<T>)
    ensures (s + t)[..|s|] == s
  {
  }
}
