/** Searching in texts. */
module Texts {

  predicate IsBlank(c: char) {
    c == ' ' || c == '\t'
  }

  /** Where `c` first stands in `t`; the length of `t` when it does not. */
  function First(t: string, c: char): (i: nat)
    ensures i <= |t| && (i < |t| ==> t[i] == c) && forall k | 0 <= k < i :: t[k] != c
  {
    if t == "" || t[0] == c then 0 else 1 + First(t[1..], c)
  }

  lemma FirstIs(t: string, c: char, i: nat)
    requires i < |t| && t[i] == c && forall k | 0 <= k < i :: t[k] != c
    ensures First(t, c) == i
  {
  }
}
