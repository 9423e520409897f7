/** The last marked place before a given one, and whether it is one of a kind. */
module Marks {
  ghost predicate LastIs(marks: nat -> bool, kind: nat -> bool, i: nat, n: nat) {
    i < n && marks(i) && kind(i) && forall k: nat {:trigger marks(k)} | i < k < n :: !marks(k)
  }

  ghost predicate LastIsOfKind(marks: nat -> bool, kind: nat -> bool, n: nat) {
    exists i: nat :: LastIs(marks, kind, i, n)
  }

  lemma OneFurther(marks: nat -> bool, kind: nat -> bool, n: nat)
    ensures LastIsOfKind(marks, kind, n + 1) <==>
              if marks(n) then kind(n) else LastIsOfKind(marks, kind, n)
  {
    if marks(n) && kind(n) {
      assert LastIs(marks, kind, n, n + 1);
    }
    var next := n + 1;
    if i: nat :| LastIs(marks, kind, i, next) {
      assert i < n ==> !marks(n) && LastIs(marks, kind, i, n);
    }
    if i: nat :| LastIs(marks, kind, i, n) {
      assert !marks(n) ==> LastIs(marks, kind, i, n + 1);
    }
  }

  lemma NoneAtFirst(marks: nat -> bool, kind: nat -> bool)
    ensures !LastIsOfKind(marks, kind, 0)
  {
  }
}
