/** Paths of steps from state to state, whatever the states, the steps, and which steps may
    be taken where. */
module Paths {
  function Before<C, S>(to: S -> C, c: C, steps: seq<S>, i: nat): C
    requires i <= |steps|
  {
    if i == 0 then c else to(steps[i - 1])
  }

  /** Each step may be taken where it is taken (`takes`), and leads to the next state (`to`). */
  ghost predicate Leads<C, S>(takes: (C, S) -> bool, to: S -> C, c: C, steps: seq<S>, d: C) {
    && Before(to, c, steps, |steps|) == d
    && forall i {:trigger takes(Before(to, c, steps, i), steps[i])} | 0 <= i < |steps| ::
         takes(Before(to, c, steps, i), steps[i])
  }

  lemma Join<C, S>(takes: (C, S) -> bool, to: S -> C, c: C, a: seq<S>, d: C, b: seq<S>, e: C)
    requires Leads(takes, to, c, a, d) && Leads(takes, to, d, b, e)
    ensures Leads(takes, to, c, a + b, e)
  {
    forall i | 0 <= i < |a + b|
      ensures takes(Before(to, c, a + b, i), (a + b)[i])
    {
      if i < |a| {
        assert Before(to, c, a + b, i) == Before(to, c, a, i) && (a + b)[i] == a[i];
        assert takes(Before(to, c, a, i), a[i]);
      } else {
        assert Before(to, c, a + b, i) == Before(to, d, b, i - |a|) && (a + b)[i] == b[i - |a|];
        assert takes(Before(to, d, b, i - |a|), b[i - |a|]);
      }
    }
  }

  lemma Tail<C, S>(takes: (C, S) -> bool, to: S -> C, c: C, steps: seq<S>, d: C)
    requires Leads(takes, to, c, steps, d) && steps != []
    ensures takes(c, steps[0]) && Leads(takes, to, to(steps[0]), steps[1..], d)
  {
    assert Before(to, c, steps, 0) == c && takes(Before(to, c, steps, 0), steps[0]);
    forall i | 0 <= i < |steps[1..]|
      ensures takes(Before(to, to(steps[0]), steps[1..], i), steps[1..][i])
    {
      assert Before(to, to(steps[0]), steps[1..], i) == Before(to, c, steps, i + 1) && steps[1..][i] == steps[i + 1];
      assert takes(Before(to, c, steps, i + 1), steps[i + 1]);
    }
  }
}
