/** Where each item of a sequence of arrivals ends, and how two such accounts, one for what
    the other left in the queue, make one. */
module Fates {
  datatype Fate = Queued | Returned | Dropped | Answered | Raised

  /** The items that end as `x`, in order; those without a fate have not been touched. */
  function Pick<T>(items: seq<T>, fates: seq<Fate>, x: Fate): seq<T>
    requires |fates| <= |items|
  {
    if fates == [] then []
    else (if fates[0] == x then [items[0]] else []) + Pick(items[1..], fates[1..], x)
  }

  /** What is still there afterwards: the queue, then the untouched items. */
  function Rest<T>(items: seq<T>, fates: seq<Fate>): seq<T>
    requires |fates| <= |items|
  {
    Pick(items, fates, Queued) + items[|fates|..]
  }

  /** First `first`, then `later` for the queue it leaves and what comes after. */
  function Refine(first: seq<Fate>, later: seq<Fate>): seq<Fate> {
    if first == [] then later
    else if first[0] != Queued then [first[0]] + Refine(first[1..], later)
    else if later == [] then first
    else [later[0]] + Refine(first[1..], later[1..])
  }

  function Waiting(n: nat): seq<Fate> {
    seq(n, _ => Queued)
  }

  lemma PickHead<T>(item: T, items: seq<T>, y: Fate, fates: seq<Fate>, x: Fate)
    requires |fates| <= |items|
    ensures Pick([item] + items, [y] + fates, x) == (if y == x then [item] else []) + Pick(items, fates, x)
  {
    assert ([item] + items)[1..] == items && ([y] + fates)[1..] == fates;
  }

  lemma {:induction false} PickWaiting<T>(items: seq<T>, n: nat, x: Fate)
    requires n <= |items|
    ensures Pick(items, Waiting(n), x) == if x == Queued then items[..n] else []
  {
    if n > 0 {
      assert Waiting(n)[1..] == Waiting(n - 1);
      PickWaiting(items[1..], n - 1, x);
    }
  }

  lemma {:induction false} PickOneMore<T>(items: seq<T>, fates: seq<Fate>, y: Fate, x: Fate)
    requires |fates| < |items|
    ensures Pick(items, fates + [y], x) == Pick(items, fates, x) + if x == y then [items[|fates|]] else []
  {
    assert items == [items[0]] + items[1..];
    if fates == [] {
      assert fates + [y] == [y] + [];
      PickHead(items[0], items[1..], y, [], x);
    } else {
      assert fates + [y] == [fates[0]] + (fates[1..] + [y]) && fates == [fates[0]] + fates[1..];
      PickHead(items[0], items[1..], fates[0], fates[1..] + [y], x);
      PickHead(items[0], items[1..], fates[0], fates[1..], x);
      PickOneMore(items[1..], fates[1..], y, x);
    }
  }

  /** Both accounts cover the same arrivals. */
  ghost predicate Fit<T>(items: seq<T>, first: seq<Fate>, later: seq<Fate>) {
    |first| <= |items| && |Pick(items, first, Queued)| <= |later| <= |Rest(items, first)|
  }

  lemma FitTail<T>(items: seq<T>, first: seq<Fate>, later: seq<Fate>)
    requires Fit(items, first, later) && first != []
    ensures Rest(items, first) == (if first[0] == Queued then [items[0]] else []) + Rest(items[1..], first[1..])
    ensures first[0] == Queued ==> later != [] && Fit(items[1..], first[1..], later[1..])
    ensures first[0] != Queued ==> Fit(items[1..], first[1..], later)
  {
    assert items[1..][|first[1..]|..] == items[|first|..];
  }

  lemma {:induction false} RefineSize<T>(items: seq<T>, first: seq<Fate>, later: seq<Fate>)
    requires Fit(items, first, later)
    ensures |Refine(first, later)| == |first| - |Pick(items, first, Queued)| + |later| <= |items|
    decreases |first|
  {
    if first != [] {
      FitTail(items, first, later);
      RefineSize(items[1..], first[1..], if first[0] == Queued then later[1..] else later);
    }
  }

  /** One arrival fewer: how an account of all begins. */
  lemma RefineHead<T>(items: seq<T>, first: seq<Fate>, later: seq<Fate>)
    requires Fit(items, first, later) && first != []
    ensures var queued := first[0] == Queued;
            && (queued ==> later != [])
            && var tail := if queued then later[1..] else later;
            && Fit(items[1..], first[1..], tail)
            && |Refine(first[1..], tail)| <= |items[1..]|
            && Refine(first, later) == [if queued then later[0] else first[0]] + Refine(first[1..], tail)
            && (queued ==> Rest(items, first) == [items[0]] + Rest(items[1..], first[1..]))
            && (!queued ==> Rest(items, first) == Rest(items[1..], first[1..]))
  {
    FitTail(items, first, later);
    RefineSize(items[1..], first[1..], if first[0] == Queued then later[1..] else later);
  }

  /** The queue in the end is what `later` leaves of the queue before. */
  lemma {:induction false} RefineQueue<T>(items: seq<T>, first: seq<Fate>, later: seq<Fate>)
    requires Fit(items, first, later) && |Refine(first, later)| <= |items|
    ensures Pick(items, Refine(first, later), Queued) == Pick(Rest(items, first), later, Queued)
    decreases |first|
  {
    if first == [] {
      assert Rest(items, first) == items;
    } else {
      RefineHead(items, first, later);
      var tail := if first[0] == Queued then later[1..] else later;
      var all, rest := Refine(first[1..], tail), Rest(items[1..], first[1..]);
      RefineQueue(items[1..], first[1..], tail);
      assert items == [items[0]] + items[1..];
      if first[0] == Queued {
        PickHead(items[0], items[1..], later[0], all, Queued);
        assert later == [later[0]] + tail;
        PickHead(items[0], rest, later[0], tail, Queued);
      } else {
        PickHead(items[0], items[1..], first[0], all, Queued);
      }
    }
  }

  /** `Pick`, counted. */
  function Count<T>(items: seq<T>, fates: seq<Fate>, x: Fate): multiset<T>
    requires |fates| <= |items|
  {
    multiset(Pick(items, fates, x))
  }

  lemma CountHead<T>(item: T, items: seq<T>, y: Fate, fates: seq<Fate>, x: Fate)
    requires |fates| <= |items|
    ensures Count([item] + items, [y] + fates, x)
         == (if y == x then multiset{item} else multiset{}) + Count(items, fates, x)
  {
    PickHead(item, items, y, fates, x);
  }

  lemma AddToEither<T>(one: multiset<T>, a: multiset<T>, b: multiset<T>)
    ensures one + (a + b) == (one + a) + b && one + (a + b) == a + (one + b)
  {
  }

  /** What has left is what left first and what left later. */
  lemma {:induction false} RefineGone<T>(items: seq<T>, first: seq<Fate>, later: seq<Fate>, x: Fate)
    requires Fit(items, first, later) && |Refine(first, later)| <= |items| && x != Queued
    ensures Count(items, Refine(first, later), x) == Count(items, first, x) + Count(Rest(items, first), later, x)
    decreases |first|
  {
    if first == [] {
      assert Rest(items, first) == items;
    } else {
      RefineHead(items, first, later);
      var tail := if first[0] == Queued then later[1..] else later;
      RefineGone(items[1..], first[1..], tail, x);
      var gone, left := Count(items[1..], first[1..], x), Count(Rest(items[1..], first[1..]), tail, x);
      assert items == [items[0]] + items[1..] && first == [first[0]] + first[1..];
      CountHead(items[0], items[1..], first[0], first[1..], x);
      if first[0] == Queued {
        assert later == [later[0]] + tail;
        CountHead(items[0], items[1..], later[0], Refine(first[1..], tail), x);
        CountHead(items[0], Rest(items[1..], first[1..]), later[0], tail, x);
        AddToEither(if later[0] == x then multiset{items[0]} else multiset{}, gone, left);
      } else {
        CountHead(items[0], items[1..], first[0], Refine(first[1..], tail), x);
        AddToEither(if first[0] == x then multiset{items[0]} else multiset{}, gone, left);
      }
    }
  }
}
