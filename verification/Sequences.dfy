/** Order-preserving selection from a sequence. */
module Sequences {
  /** `a` can be obtained from `b` by leaving elements out. */
  ghost predicate Subsequence<T>(a: seq<T>, b: seq<T>)
    decreases |b|
  {
    || a == []
    || (&& b != []
        && (|| (a[|a| - 1] == b[|b| - 1] && Subsequence(a[..|a| - 1], b[..|b| - 1]))
            || Subsequence(a, b[..|b| - 1])))
  }

  lemma {:induction false} SubsequenceOfConcat<T>(a1: seq<T>, b1: seq<T>, a2: seq<T>, b2: seq<T>)
    requires Subsequence(a1, b1) && Subsequence(a2, b2)
    ensures Subsequence(a1 + a2, b1 + b2)
    decreases |b2|
  {
    if b2 == [] {
      assert a1 + a2 == a1 && b1 + b2 == b1;
    } else {
      var f2 := b2[..|b2| - 1];
      assert (b1 + b2)[..|b1 + b2| - 1] == b1 + f2;
      if a2 == [] || Subsequence(a2, f2) {
        SubsequenceOfConcat(a1, b1, a2, f2);
      } else {
        var e2 := a2[..|a2| - 1];
        SubsequenceOfConcat(a1, b1, e2, f2);
        assert (a1 + a2)[..|a1 + a2| - 1] == a1 + e2;
      }
    }
  }
}
