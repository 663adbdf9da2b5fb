/** Sequences without repeated elements. */
module Repeats {

  ghost predicate NoRepeats<T>(s: seq<T>) {
    forall i, j :: 0 <= i < j < |s| ==> s[i] != s[j]
  }

  lemma {:induction false} NoRepeatsFits<T>(s: seq<T>, within: set<T>)
    requires NoRepeats(s) && forall i :: 0 <= i < |s| ==> s[i] in within
    ensures |s| <= |within|
  {
    if s != [] {
      var rest := s[..|s| - 1];
      NoRepeatsFits(rest, within - {s[|s| - 1]});
    }
  }

  lemma {:induction false} NoRepeatsIsSet<T>(s: seq<T>)
    requires NoRepeats(s)
    ensures multiset(s) == multiset(set x | x in s)
  {
    if s != [] {
      var rest, last := s[..|s| - 1], s[|s| - 1];
      NoRepeatsIsSet(rest);
      assert s == rest + [last] && last !in rest;
      assert (set x | x in s) == (set x | x in rest) + {last};
    }
  }
}
