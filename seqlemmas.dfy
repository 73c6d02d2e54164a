/** Facts about sequences that the proofs use as explicit steps. */
module SeqLemmas {
  /** Concatenation of sequences is associative. */
  lemma AppendAssoc<T>(a: seq<T>, b: seq<T>, c: seq<T>)
    ensures a + b + c == a + (b + c)
  {
  }

  /** An element is in a prefix one longer iff it is in the shorter prefix or is the next element. */
  lemma InPrefixSnoc<T>(s: seq<T>, i: nat, x: T)
    requires i < |s|
    ensures x in s[..i + 1] <==> x in s[..i] || x == s[i]
  {
    assert s[..i + 1] == s[..i] + [s[i]];
  }
}
