/** Counting over the per-pipe flags of the flappy games, and distinctness of
    the lists the games keep. */
module Tally {

  /** How many entries of s are true. */
  function CountTrue(s: seq<bool>): (n: nat)
    ensures n <= |s|
  {
    if s == [] then 0
    else CountTrue(s[..|s| - 1]) + (if s[|s| - 1] then 1 else 0)
  }

  /** No element of s occurs twice. */
  predicate Distinct<T(==)>(s: seq<T>) {
    forall i, j :: 0 <= i < j < |s| ==> s[i] != s[j]
  }

  lemma CountTrueSnoc(s: seq<bool>, i: int)
    requires 0 <= i < |s|
    ensures CountTrue(s[..i + 1]) == CountTrue(s[..i]) + (if s[i] then 1 else 0)
  {
    assert s[..i + 1][..i] == s[..i];
  }

  lemma CountTrueAppendOne(s: seq<bool>, v: bool)
    ensures CountTrue(s + [v]) == CountTrue(s) + (if v then 1 else 0)
  {
    assert (s + [v])[..|s|] == s;
  }

  /** A sequence with no true entry counts zero. */
  lemma {:induction false} CountTrueNone(s: seq<bool>)
    requires forall i :: 0 <= i < |s| ==> !s[i]
    ensures CountTrue(s) == 0
  {
    if s != [] {
      CountTrueNone(s[..|s| - 1]);
    }
  }

  /** Setting flags that were clear raises the count by the number of flags set. */
  lemma {:induction false} CountTrueMerge(before: seq<bool>, added: seq<bool>, after: seq<bool>)
    requires |before| == |added| == |after|
    requires forall i :: 0 <= i < |after| ==> after[i] == (before[i] || added[i])
    requires forall i :: 0 <= i < |added| && added[i] ==> !before[i]
    ensures CountTrue(after) == CountTrue(before) + CountTrue(added)
  {
    if after != [] {
      var n := |after| - 1;
      CountTrueMerge(before[..n], added[..n], after[..n]);
    }
  }
}
