/** Properties of the strategy over whole series: how consecutive signals relate, which
    windows can signal at all, and that only the last bars and relative prices matter. */
module SmaTheorems {
  import opened Contracts
  import opened SmaStrategy

  // ---- a growing series ----------------------------------------------------

  /** The difference after the first `n` closes. */
  function At(closes: seq<real>, config: SmaConfig, n: nat): real
    requires config.Valid() && config.slow <= n <= |closes|
  {
    Difference(closes[..n], config)
  }

  /** The side `generate` reports on the first `n` candles. */
  function SideAt(closes: seq<real>, config: SmaConfig, n: nat): Option<Side>
    requires config.Valid() && config.slow < n <= |closes|
  {
    SideOf(At(closes, config, n - 1), At(closes, config, n))
  }

  /** Run on a prefix, `generate` compares the averages before and after its last bar; one
      call's new difference is the next call's old one. */
  lemma GenerateOnPrefixes(config: SmaConfig, candles: seq<Candle>, now: Instant, o: Order, n: nat)
    requires config.Valid() && config.slow < n <= |candles|
    requires Chronological(candles[..n]) && !InFuture(candles[..n], now)
    ensures Generate(config, candles[..n], now, o)
         == Verdict(config, o, SideAt(Closes(candles), config, n), candles[n - 1], now)
  {
    assert Closes(candles[..n]) == Closes(candles)[..n];
    CrossingOfPrefix(Closes(candles), config, n);
    GenerateByCrossing(config, candles[..n], now, o, SideAt(Closes(candles), config, n));
  }

  lemma GenerateByCrossing(config: SmaConfig, candles: seq<Candle>, now: Instant, o: Order, side: Option<Side>)
    requires config.Valid() && Chronological(candles) && !InFuture(candles, now) && |candles| > config.slow
    requires side == Crossing(Closes(candles), config)
    ensures Generate(config, candles, now, o) == Verdict(config, o, side, candles[|candles| - 1], now)
  {
  }

  lemma CrossingOfPrefix(closes: seq<real>, config: SmaConfig, n: nat)
    requires config.Valid() && config.slow < n <= |closes|
    ensures Crossing(closes[..n], config) == SideAt(closes, config, n)
  {
    assert closes[..n][..n - 1] == closes[..n - 1];
  }

  /** No signal of either side strictly between `i` and `j`. */
  ghost predicate QuietBetween(closes: seq<real>, config: SmaConfig, i: nat, j: nat)
    requires config.Valid() && config.slow < i <= j <= |closes|
  {
    forall n | i < n < j :: SideAt(closes, config, n).None?
  }

  /** While nothing signals, a difference above zero cannot fall below it. */
  lemma {:induction false} StaysUp(closes: seq<real>, config: SmaConfig, i: nat, n: nat)
    requires config.Valid() && config.slow < i <= n <= |closes| && At(closes, config, i) > 0.0
    requires forall k | i < k <= n :: SideAt(closes, config, k).None?
    ensures At(closes, config, n) >= 0.0
    decreases n
  {
    if i < n {
      StaysUp(closes, config, i, n - 1);
      assert SideAt(closes, config, n).None?;
    }
  }

  lemma {:induction false} StaysDown(closes: seq<real>, config: SmaConfig, i: nat, n: nat)
    requires config.Valid() && config.slow < i <= n <= |closes| && At(closes, config, i) < 0.0
    requires forall k | i < k <= n :: SideAt(closes, config, k).None?
    ensures At(closes, config, n) <= 0.0
    decreases n
  {
    if i < n {
      StaysDown(closes, config, i, n - 1);
      assert SideAt(closes, config, n).None?;
    }
  }

  /** The averages were apart after `m` bars and are apart the same way after `j`, with all
      differences in between, and at least one, exactly zero. */
  ghost predicate TouchesSince(closes: seq<real>, config: SmaConfig, m: nat, j: nat)
    requires config.Valid() && j <= |closes|
  {
    && config.slow <= m < j - 1
    && ((At(closes, config, m) > 0.0 && At(closes, config, j) > 0.0)
        || (At(closes, config, m) < 0.0 && At(closes, config, j) < 0.0))
    && forall k | m < k < j :: At(closes, config, k) == 0.0
  }

  /** Read off the differences up to `j` alone: the averages have just touched without
      crossing. */
  ghost predicate Touches(closes: seq<real>, config: SmaConfig, j: nat)
    requires config.Valid() && j <= |closes|
  {
    exists m :: TouchesSince(closes, config, m, j)
  }

  lemma {:induction false} LastApart(closes: seq<real>, config: SmaConfig, i: nat, n: nat) returns (m: nat)
    requires config.Valid() && config.slow <= i <= n <= |closes| && At(closes, config, i) != 0.0
    ensures i <= m <= n && At(closes, config, m) != 0.0
    ensures forall k | m < k <= n :: At(closes, config, k) == 0.0
    decreases n
  {
    if At(closes, config, n) != 0.0 {
      m := n;
    } else {
      m := LastApart(closes, config, i, n - 1);
    }
  }

  lemma RepeatTouches(closes: seq<real>, config: SmaConfig, i: nat, j: nat)
    requires config.Valid() && config.slow < i < j <= |closes|
    requires SideAt(closes, config, i).Some? && SideAt(closes, config, i) == SideAt(closes, config, j)
    requires QuietBetween(closes, config, i, j)
    ensures Touches(closes, config, j) && i < j - 1
  {
    var m := LastApart(closes, config, i, j - 1);
    if SideAt(closes, config, i) == Some(Buy) {
      StaysUp(closes, config, i, j - 1);
      StaysUp(closes, config, i, m);
    } else {
      StaysDown(closes, config, i, j - 1);
      StaysDown(closes, config, i, m);
    }
    assert TouchesSince(closes, config, m, j);
  }

  lemma TouchRepeats(closes: seq<real>, config: SmaConfig, i: nat, j: nat, m: nat)
    requires config.Valid() && config.slow < i < j <= |closes|
    requires SideAt(closes, config, i).Some? && SideAt(closes, config, j).Some?
    requires QuietBetween(closes, config, i, j) && TouchesSince(closes, config, m, j)
    ensures SideAt(closes, config, i) == SideAt(closes, config, j)
  {
    assert i <= m;
    if SideAt(closes, config, i) == Some(Buy) {
      StaysUp(closes, config, i, m);
    } else {
      StaysDown(closes, config, i, m);
    }
  }

  /** Two signals in a row are on the same side exactly when the averages have touched without
      crossing just before the second; and then they are not on neighbouring prefixes. */
  lemma SidesAlternate(closes: seq<real>, config: SmaConfig, i: nat, j: nat)
    requires config.Valid() && config.slow < i < j <= |closes|
    requires SideAt(closes, config, i).Some? && SideAt(closes, config, j).Some?
    requires QuietBetween(closes, config, i, j)
    ensures SideAt(closes, config, i) == SideAt(closes, config, j) <==> Touches(closes, config, j)
    ensures SideAt(closes, config, i) == SideAt(closes, config, j) ==> i < j - 1
  {
    if SideAt(closes, config, i) == SideAt(closes, config, j) {
      RepeatTouches(closes, config, i, j);
    }
    if m :| TouchesSince(closes, config, m, j) {
      TouchRepeats(closes, config, i, j, m);
    }
  }

  /** The call made after the `n`-th bar, at the clock reading of that moment. */
  function CallAt(config: SmaConfig, candles: seq<Candle>, o: Order, clock: nat -> Instant, n: nat): Generated
    requires config.Valid() && n <= |candles|
  {
    Generate(config, candles[..n], clock(n), o)
  }

  lemma CallOnPrefix(config: SmaConfig, candles: seq<Candle>, o: Order, clock: nat -> Instant, n: nat)
    requires config.Valid() && config.slow < n <= |candles| && Chronological(candles[..n])
    requires !CallAt(config, candles, o, clock, n).Refused?
    ensures CallAt(config, candles, o, clock, n)
         == Verdict(config, o, SideAt(Closes(candles), config, n), candles[n - 1], clock(n))
  {
    GenerateOnPrefixes(config, candles, clock(n), o, n);
  }

  lemma ShorterIsChronological(candles: seq<Candle>, n: nat, m: nat)
    requires n <= m <= |candles| && Chronological(candles[..m])
    ensures Chronological(candles[..n])
  {
    assert candles[..m][..n] == candles[..n];
    forall i | 0 <= i < n - 1
      ensures candles[..n][i].closedAt < candles[..n][i + 1].closedAt
    {
      assert candles[..m][i].closedAt < candles[..m][i + 1].closedAt;
    }
  }

  /** Called after each bar as it closes, the strategy gives two signals in a row on the same
      side exactly when the averages have touched without crossing just before the second;
      otherwise its signals alternate. */
  lemma SignalsAlternate(config: SmaConfig, candles: seq<Candle>, o: Order, clock: nat -> Instant, i: nat, j: nat)
    requires config.Valid() && config.slow < i < j <= |candles|
    requires CallAt(config, candles, o, clock, i).Signalled? && CallAt(config, candles, o, clock, j).Signalled?
    requires forall k | i < k < j :: CallAt(config, candles, o, clock, k) == NoSignal
    ensures CallAt(config, candles, o, clock, i).signal.side == CallAt(config, candles, o, clock, j).signal.side
            <==> Touches(Closes(candles), config, j)
  {
    var closes := Closes(candles);
    forall k | i <= k <= j
      ensures CallAt(config, candles, o, clock, k)
           == Verdict(config, o, SideAt(closes, config, k), candles[k - 1], clock(k))
    {
      ShorterIsChronological(candles, k, j);
      CallOnPrefix(config, candles, o, clock, k);
    }
    forall k | i < k < j
      ensures SideAt(closes, config, k).None?
    {
      assert CallAt(config, candles, o, clock, k) == NoSignal;
    }
    SidesAlternate(closes, config, i, j);
  }

  // ---- the crossing, by means ----------------------------------------------

  /** The sum of the closes from the `i`-th up to before the `j`-th. */
  function SumBetween(closes: seq<real>, i: nat, j: nat): real
    requires i <= j <= |closes|
    decreases j - i
  {
    if i == j then 0.0 else closes[i] + SumBetween(closes, i + 1, j)
  }

  /** The mean of the `n` closes before the `j`-th. */
  function Mean(closes: seq<real>, n: nat, j: nat): real
    requires 0 < n <= j <= |closes|
  {
    SumBetween(closes, j - n, j) / n as real
  }

  lemma {:induction false} SumGrowsAtTheEnd(closes: seq<real>, i: nat, j: nat)
    requires i <= j < |closes|
    ensures SumBetween(closes, i, j + 1) == SumBetween(closes, i, j) + closes[j]
    decreases j - i
  {
    if i < j {
      SumGrowsAtTheEnd(closes, i + 1, j);
    }
  }

  lemma {:induction false} TotalIsSum(closes: seq<real>, i: nat, j: nat, window: seq<real>, n: nat)
    requires i <= j <= |closes| && window == closes[i..j] && n <= |window|
    ensures Total(window, n) == SumBetween(closes, i, i + n)
    decreases n
  {
    if n > 0 {
      TotalIsSum(closes, i, j, window, n - 1);
      SumGrowsAtTheEnd(closes, i, i + n - 1);
    }
  }

  lemma AverageIsMean(closes: seq<real>, n: nat, j: nat)
    requires 0 < n <= j <= |closes|
    ensures Average(closes[..j], n) == Mean(closes, n, j)
  {
    var window := closes[j - n..j];
    assert closes[..j][j - n..] == window;
    TotalIsSum(closes, j - n, j, window, n);
  }

  lemma DifferenceIsOfMeans(closes: seq<real>, config: SmaConfig, j: nat)
    requires config.Valid() && config.slow <= j <= |closes|
    ensures At(closes, config, j) == Mean(closes, config.fast, j) - Mean(closes, config.slow, j)
  {
    AverageIsMean(closes, config.fast, j);
    AverageIsMean(closes, config.slow, j);
  }

  /** The strategy buys after bar `n` exactly when the mean of the last fast closes was at or
      below that of the last slow ones before the bar and is above it after; and sells the
      other way round. */
  lemma SidesByMeans(closes: seq<real>, config: SmaConfig, n: nat)
    requires config.Valid() && config.slow < n <= |closes|
    ensures var fast0, slow0 := Mean(closes, config.fast, n - 1), Mean(closes, config.slow, n - 1);
            var fast1, slow1 := Mean(closes, config.fast, n), Mean(closes, config.slow, n);
            && (SideAt(closes, config, n) == Some(Buy) <==> fast0 <= slow0 && fast1 > slow1)
            && (SideAt(closes, config, n) == Some(Sell) <==> fast0 >= slow0 && fast1 < slow1)
  {
    DifferenceIsOfMeans(closes, config, n - 1);
    DifferenceIsOfMeans(closes, config, n);
  }

  // ---- shapes of the last window -------------------------------------------

  ghost predicate NonDecreasing(values: seq<real>) {
    forall i, j | 0 <= i < j < |values| :: values[i] <= values[j]
  }

  ghost predicate NonIncreasing(values: seq<real>) {
    forall i, j | 0 <= i < j < |values| :: values[i] >= values[j]
  }

  ghost predicate Increasing(values: seq<real>) {
    forall i, j | 0 <= i < j < |values| :: values[i] < values[j]
  }

  ghost predicate Decreasing(values: seq<real>) {
    forall i, j | 0 <= i < j < |values| :: values[i] > values[j]
  }

  /** Averages from sums: the sign of a difference of two quotients. */
  lemma QuotientsCompare(early: real, late: real, f: real, s: real)
    requires 0.0 < f < s
    ensures late / f - (early + late) / s == (late * (s - f) - early * f) / (f * s)
  {
    var d := f * s;
    assert d > 0.0;
    assert late / f == late * s / d by {
      assert late / f * d == late * s;
    }
    assert (early + late) / s == (early + late) * f / d by {
      assert (early + late) / s * d == (early + late) * f;
    }
    assert late * s - (early + late) * f == late * (s - f) - early * f;
    assert late * s / d - (early + late) * f / d == (late * s - (early + late) * f) / d;
  }

  /** The closes of the slow window that are not in the fast one, and those that are. */
  function Early(closes: seq<real>, config: SmaConfig): seq<real>
    requires config.Valid() && |closes| >= config.slow
  {
    closes[|closes| - config.slow..|closes| - config.fast]
  }

  function Late(closes: seq<real>, config: SmaConfig): seq<real>
    requires config.Valid() && |closes| >= config.slow
  {
    closes[|closes| - config.fast..]
  }

  lemma DifferenceOfParts(closes: seq<real>, config: SmaConfig)
    requires config.Valid() && |closes| >= config.slow
    ensures var early, late := Sum(Early(closes, config)), Sum(Late(closes, config));
            Difference(closes, config) == late / config.fast as real - (early + late) / config.slow as real
  {
    var early, late := Early(closes, config), Late(closes, config);
    assert closes[|closes| - config.slow..] == early + late;
    SumOfConcat(early, late);
  }

  /** The difference has the sign of this balance of the two stretches. */
  lemma DifferenceAsBalance(closes: seq<real>, config: SmaConfig)
    requires config.Valid() && |closes| >= config.slow
    ensures var f, s := config.fast as real, config.slow as real;
            var balance := Sum(Late(closes, config)) * (s - f) - Sum(Early(closes, config)) * f;
            && (Difference(closes, config) > 0.0 <==> balance > 0.0)
            && (Difference(closes, config) < 0.0 <==> balance < 0.0)
  {
    DifferenceOfParts(closes, config);
    SignOfBalance(Sum(Early(closes, config)), Sum(Late(closes, config)), config.fast as real, config.slow as real);
  }

  lemma SignOfBalance(early: real, late: real, f: real, s: real)
    requires 0.0 < f < s
    ensures var d, balance := late / f - (early + late) / s, late * (s - f) - early * f;
            (d > 0.0 <==> balance > 0.0) && (d < 0.0 <==> balance < 0.0)
  {
    QuotientsCompare(early, late, f, s);
    SignOfQuotient(late * (s - f) - early * f, f * s);
  }

  lemma SignOfQuotient(x: real, d: real)
    requires d > 0.0
    ensures (x / d > 0.0 <==> x > 0.0) && (x / d < 0.0 <==> x < 0.0)
  {
    assert x / d * d == x;
  }

  lemma BalanceOf(early: real, late: real, m: real, f: real, x: real)
    requires m > 0.0 && f > 0.0
    ensures late >= f * x && early <= m * x ==> late * m - early * f >= 0.0
    ensures late > f * x && early <= m * x ==> late * m - early * f > 0.0
    ensures late <= f * x && early >= m * x ==> late * m - early * f <= 0.0
    ensures late < f * x && early >= m * x ==> late * m - early * f < 0.0
  {
    var a, b := late - f * x, m * x - early;
    assert late * m - early * f == a * m + b * f by {
      assert a * m == late * m - f * x * m;
      assert b * f == m * x * f - early * f;
    }
  }

  ghost function Window(closes: seq<real>, config: SmaConfig): seq<real>
    requires config.Valid() && |closes| >= config.slow
  {
    closes[|closes| - config.slow..]
  }

  /** What bounds on the two stretches say about the averages: compare them with `x`. */
  ghost predicate DecidedBy(difference: real, early: real, late: real, m: real, f: real, x: real) {
    && (late >= Times(f, x) && early <= Times(m, x) ==> difference >= 0.0)
    && (late > Times(f, x) && early <= Times(m, x) ==> difference > 0.0)
    && (late <= Times(f, x) && early >= Times(m, x) ==> difference <= 0.0)
    && (late < Times(f, x) && early >= Times(m, x) ==> difference < 0.0)
  }

  lemma DifferenceFromSums(closes: seq<real>, config: SmaConfig, x: real)
    requires config.Valid() && |closes| >= config.slow
    ensures DecidedBy(Difference(closes, config), Sum(Early(closes, config)), Sum(Late(closes, config)),
                      (config.slow - config.fast) as real, config.fast as real, x)
  {
    DifferenceAsBalance(closes, config);
    var f, s := config.fast as real, config.slow as real;
    BalanceOf(Sum(Early(closes, config)), Sum(Late(closes, config)), s - f, f, x);
  }

  lemma RisingParts(early: seq<real>, late: seq<real>, difference: real)
    requires early != [] && |late| >= 2 && NonDecreasing(early + late)
    requires DecidedBy(difference, Sum(early), Sum(late), |early| as real, |late| as real, late[0])
    ensures difference >= 0.0
    ensures Increasing(early + late) ==> difference > 0.0
  {
    var w, x := early + late, late[0];
    assert forall i | 0 <= i < |early| :: early[i] == w[i];
    assert forall i | 0 <= i < |late| :: late[i] == w[|early| + i];
    TotalAtMost(early, |early|, x);
    TotalAtLeast(late, |late|, x);
    if Increasing(w) {
      SumAbove(late, x);
    }
  }

  lemma FallingParts(early: seq<real>, late: seq<real>, difference: real)
    requires early != [] && |late| >= 2 && NonIncreasing(early + late)
    requires DecidedBy(difference, Sum(early), Sum(late), |early| as real, |late| as real, late[0])
    ensures difference <= 0.0
    ensures Decreasing(early + late) ==> difference < 0.0
  {
    var w, x := early + late, late[0];
    assert forall i | 0 <= i < |early| :: early[i] == w[i];
    assert forall i | 0 <= i < |late| :: late[i] == w[|early| + i];
    TotalAtLeast(early, |early|, x);
    TotalAtMost(late, |late|, x);
    if Decreasing(w) {
      SumBelow(late, x);
    }
  }

  /** Over the last `slow` closes, a rising window puts the fast average above the slow one,
      a falling window below. */
  lemma WindowDecides(closes: seq<real>, config: SmaConfig)
    requires config.Valid() && |closes| >= config.slow
    ensures TrendOf(Window(closes, config), Difference(closes, config))
  {
    var early, late := Early(closes, config), Late(closes, config);
    var d := Difference(closes, config);
    assert Window(closes, config) == early + late;
    DifferenceFromSums(closes, config, late[0]);
    TrendOfParts(early, late, d);
  }

  ghost predicate TrendOf(w: seq<real>, difference: real) {
    && (NonDecreasing(w) ==> difference >= 0.0)
    && (NonIncreasing(w) ==> difference <= 0.0)
    && (NonDecreasing(w) && Increasing(w) ==> difference > 0.0)
    && (NonIncreasing(w) && Decreasing(w) ==> difference < 0.0)
  }

  lemma TrendOfParts(early: seq<real>, late: seq<real>, difference: real)
    requires early != [] && |late| >= 2
    requires DecidedBy(difference, Sum(early), Sum(late), |early| as real, |late| as real, late[0])
    ensures TrendOf(early + late, difference)
  {
    if NonDecreasing(early + late) {
      RisingParts(early, late, difference);
    }
    if NonIncreasing(early + late) {
      FallingParts(early, late, difference);
    }
  }

  /** A window that only rises or only falls gives no signal; one that never falls gives no
      sell and one that never rises gives no buy. */
  ghost predicate Quiet(w: seq<real>, side: Option<Side>) {
    && (Increasing(w) || Decreasing(w) ==> side.None?)
    && (NonDecreasing(w) ==> side != Some(Sell))
    && (NonIncreasing(w) ==> side != Some(Buy))
  }

  lemma TwoTrends(w: seq<real>, n: nat, before: real, after: real)
    requires |w| == n + 1 && TrendOf(w[..n], before) && TrendOf(w[1..], after)
    ensures Quiet(w, SideOf(before, after))
  {
    assert Increasing(w) ==> NonDecreasing(w);
    assert Decreasing(w) ==> NonIncreasing(w);
  }

  /** The strategy follows no trend already under way: the final `slow + 1` closes decide. */
  lemma TrendsAreQuiet(closes: seq<real>, config: SmaConfig)
    requires config.Valid() && |closes| > config.slow
    ensures Quiet(closes[|closes| - config.slow - 1..], Crossing(closes, config))
  {
    var n, w := |closes|, closes[|closes| - config.slow - 1..];
    TrendBefore(closes, config);
    WindowDecides(closes, config);
    assert Window(closes, config) == w[1..];
    TwoTrends(w, config.slow, Difference(closes[..n - 1], config), Difference(closes, config));
  }

  /** No entry into a trend: `generate` on a window that only rises or only falls is silent. */
  lemma NoSignalInsideATrend(config: SmaConfig, candles: seq<Candle>, now: Instant, o: Order)
    requires config.Valid() && |candles| > config.slow
    ensures var g, w := Generate(config, candles, now, o), Closes(candles)[|candles| - config.slow - 1..];
            Quiet(w, if g.Signalled? then Some(g.signal.side) else None)
  {
    if !InFuture(candles, now) && Chronological(candles) {
      var side := Crossing(Closes(candles), config);
      TrendsAreQuiet(Closes(candles), config);
      GenerateByCrossing(config, candles, now, o, side);
    }
  }

  lemma TrendBefore(closes: seq<real>, config: SmaConfig)
    requires config.Valid() && |closes| > config.slow
    ensures TrendOf(closes[|closes| - config.slow - 1..][..config.slow], Difference(closes[..|closes| - 1], config))
  {
    var n := |closes|;
    WindowDecides(closes[..n - 1], config);
    Middle(closes, n - config.slow - 1, n - 1);
  }

  lemma Middle(s: seq<real>, i: nat, j: nat)
    requires i <= j <= |s|
    ensures s[..j][i..] == s[i..][..j - i]
  {
  }

  // ---- what a signal rests on ----------------------------------------------

  lemma {:induction false} TimesIncrease(candles: seq<Candle>, i: nat, j: nat)
    requires Chronological(candles) && i < j < |candles|
    ensures candles[i].closedAt < candles[j].closedAt
    decreases j
  {
    assert candles[j - 1].closedAt < candles[j - 1 + 1].closedAt;
    if i < j - 1 {
      TimesIncrease(candles, i, j - 1);
    }
  }

  /** A signal rests on closed bars only, in strict order, and on its configured number of
      them; the bar it names is the newest, and no bar is dated after the signal. */
  lemma SignalsNeverLookAhead(config: SmaConfig, candles: seq<Candle>, now: Instant, o: Order)
    requires config.Valid() && Generate(config, candles, now, o).Signalled?
    ensures |candles| > config.slow
    ensures forall i | 0 <= i < |candles| :: candles[i].closedAt <= Generate(config, candles, now, o).signal.createdAt
    ensures forall i, j | 0 <= i < j < |candles| :: candles[i].closedAt < candles[j].closedAt
    ensures Generate(config, candles, now, o).signal.context
         == SmaContext(candles[|candles| - 1].closedAt, config.fast, config.slow,
                       config.stopFraction, config.rewardRisk)
  {
    forall i, j | 0 <= i < j < |candles|
      ensures candles[i].closedAt < candles[j].closedAt
    {
      TimesIncrease(candles, i, j);
    }
  }

  /** Out of order or future bars are refused, whatever their prices; a short series is silent. */
  lemma RefusalsComeFirst(config: SmaConfig, candles: seq<Candle>, now: Instant, o: Order)
    requires config.Valid()
    ensures (exists i :: 0 <= i < |candles| && candles[i].closedAt > now)
            <==> Generate(config, candles, now, o) == Refused(FutureCandle)
    ensures !InFuture(candles, now)
            && (exists i, j :: 0 <= i < j < |candles| && candles[i].closedAt >= candles[j].closedAt)
            <==> Generate(config, candles, now, o) == Refused(NotChronological)
  {
    if i, j :| 0 <= i < j < |candles| && candles[i].closedAt >= candles[j].closedAt {
      if Chronological(candles) {
        TimesIncrease(candles, i, j);
      }
    }
    if !Chronological(candles) {
      var i :| 0 <= i < |candles| - 1 && candles[i].closedAt >= candles[i + 1].closedAt;
    }
  }

  // ---- locality and scale --------------------------------------------------

  /** Only the last `slow + 1` candles matter: dropping any earlier ones changes nothing. */
  lemma OnlyTheLastWindowMatters(config: SmaConfig, candles: seq<Candle>, now: Instant, o: Order, k: nat)
    requires config.Valid() && k < |candles| - config.slow && Chronological(candles) && !InFuture(candles, now)
    ensures Generate(config, candles[k..], now, o) == Generate(config, candles, now, o)
  {
    var side := Crossing(Closes(candles), config);
    GenerateOnSuffix(config, candles, now, o, k, side);
    GenerateByCrossing(config, candles, now, o, side);
  }

  lemma GenerateOnSuffix(config: SmaConfig, candles: seq<Candle>, now: Instant, o: Order, k: nat, side: Option<Side>)
    requires config.Valid() && Chronological(candles) && !InFuture(candles, now)
    requires k < |candles| - config.slow && side == Crossing(Closes(candles), config)
    ensures Generate(config, candles[k..], now, o) == Verdict(config, o, side, candles[|candles| - 1], now)
  {
    SuffixIsLegal(candles, now, k);
    CrossingOfSuffix(candles, config, k);
    GenerateByCrossing(config, candles[k..], now, o, side);
  }

  lemma CrossingOfSuffix(candles: seq<Candle>, config: SmaConfig, k: nat)
    requires config.Valid() && k < |candles| - config.slow
    ensures Crossing(Closes(candles[k..]), config) == Crossing(Closes(candles), config)
  {
    assert Closes(candles[k..]) == Closes(candles)[k..];
    SameCrossing(Closes(candles), config, k);
  }

  lemma SameCrossing(closes: seq<real>, config: SmaConfig, k: nat)
    requires config.Valid() && k < |closes| - config.slow
    ensures Crossing(closes[k..], config) == Crossing(closes, config)
  {
    SameDifference(closes, closes[k..], config);
    var n := |closes|;
    assert closes[k..][..n - k - 1] == closes[..n - 1][k..];
    SameDifference(closes[..n - 1], closes[..n - 1][k..], config);
  }

  lemma SuffixIsLegal(candles: seq<Candle>, now: Instant, k: nat)
    requires k <= |candles| && Chronological(candles) && !InFuture(candles, now)
    ensures Chronological(candles[k..]) && !InFuture(candles[k..], now)
  {
    assert forall i | 0 <= i < |candles| - k :: candles[k..][i] == candles[k + i];
  }

  lemma SameDifference(closes: seq<real>, last: seq<real>, config: SmaConfig)
    requires config.Valid() && config.slow <= |last| <= |closes| && last == closes[|closes| - |last|..]
    ensures Difference(last, config) == Difference(closes, config)
  {
    assert last[|last| - config.slow..] == closes[|closes| - config.slow..];
    assert last[|last| - config.fast..] == closes[|closes| - config.fast..];
  }

  function ScaledCandles(candles: seq<Candle>, k: real): (r: seq<Candle>)
    ensures |r| == |candles|
    ensures forall i | 0 <= i < |candles| :: r[i] == Candle(candles[i].closedAt, Times(candles[i].close, k))
  {
    seq(|candles|, i requires 0 <= i < |candles| => Candle(candles[i].closedAt, Times(candles[i].close, k)))
  }

  lemma AverageScales(closes: seq<real>, n: int, k: real)
    requires 0 < n <= |closes|
    ensures Average(Scaled(closes, k), n) == Times(Average(closes, n), k)
  {
    var tail := closes[|closes| - n..];
    assert Scaled(closes, k)[|closes| - n..] == Scaled(tail, k);
    TotalScales(tail, n, k);
    QuotientScales(Sum(tail), n as real, k);
  }

  lemma QuotientScales(x: real, d: real, k: real)
    requires d > 0.0
    ensures Times(x, k) / d == Times(x / d, k)
  {
    assert x / d * d == x;
    assert (x / d * k) * d == x * k;
  }

  lemma DifferenceScales(closes: seq<real>, config: SmaConfig, k: real)
    requires config.Valid() && |closes| >= config.slow
    ensures Difference(Scaled(closes, k), config) == Times(Difference(closes, config), k)
  {
    AverageScales(closes, config.fast, k);
    AverageScales(closes, config.slow, k);
    TimesDifference(Average(closes, config.fast), Average(closes, config.slow), k);
  }

  lemma TimesDifference(x: real, y: real, k: real)
    ensures Times(x, k) - Times(y, k) == Times(x - y, k)
  {
  }

  lemma SideScales(before: real, after: real, k: real)
    requires k > 0.0
    ensures SideOf(Times(before, k), Times(after, k)) == SideOf(before, after)
  {
    SignOfProduct(before, k);
    SignOfProduct(after, k);
  }

  lemma SignOfProduct(x: real, k: real)
    requires k > 0.0
    ensures (Times(x, k) > 0.0 <==> x > 0.0) && (Times(x, k) < 0.0 <==> x < 0.0)
  {
  }

  /** The same signal with its three prices multiplied by `k`. */
  function Repriced(g: Generated, k: real): Generated {
    match g
    case Signalled(s) =>
      Signalled(s.(entry := Times(s.entry, k), stopLoss := Times(s.stopLoss, k), takeProfit := Times(s.takeProfit, k)))
    case _ => g
  }

  /** Multiplying all prices by a positive constant keeps the verdict and scales the prices. */
  lemma PricesScale(config: SmaConfig, candles: seq<Candle>, now: Instant, o: Order, k: real)
    requires config.Valid() && k > 0.0
    ensures Generate(config, ScaledCandles(candles, k), now, o) == Repriced(Generate(config, candles, now, o), k)
  {
    SameTimes(candles, k, now);
    if !InFuture(candles, now) && Chronological(candles) && |candles| > config.slow {
      LegalPricesScale(config, candles, now, o, k, Crossing(Closes(candles), config));
    }
  }

  lemma LegalPricesScale(config: SmaConfig, candles: seq<Candle>, now: Instant, o: Order, k: real, side: Option<Side>)
    requires config.Valid() && k > 0.0
    requires Chronological(candles) && !InFuture(candles, now) && |candles| > config.slow
    requires side == Crossing(Closes(candles), config)
    ensures Generate(config, ScaledCandles(candles, k), now, o) == Repriced(Generate(config, candles, now, o), k)
  {
    GenerateScaled(config, candles, now, o, k, side);
    GenerateByCrossing(config, candles, now, o, side);
    VerdictScales(config, o, side, candles[|candles| - 1], now, k);
  }

  lemma GenerateScaled(config: SmaConfig, candles: seq<Candle>, now: Instant, o: Order, k: real, side: Option<Side>)
    requires config.Valid() && k > 0.0
    requires Chronological(candles) && !InFuture(candles, now) && |candles| > config.slow
    requires side == Crossing(Closes(candles), config)
    ensures Generate(config, ScaledCandles(candles, k), now, o)
         == Verdict(config, o, side, ScaledCandles(candles, k)[|candles| - 1], now)
  {
    SameTimes(candles, k, now);
    ClosesScale(candles, config, k);
    GenerateByCrossing(config, ScaledCandles(candles, k), now, o, side);
  }

  lemma ClosesScale(candles: seq<Candle>, config: SmaConfig, k: real)
    requires config.Valid() && k > 0.0 && |candles| > config.slow
    ensures Crossing(Closes(ScaledCandles(candles, k)), config) == Crossing(Closes(candles), config)
  {
    assert Closes(ScaledCandles(candles, k)) == Scaled(Closes(candles), k);
    CrossingScales(Closes(candles), config, k);
  }

  lemma CrossingScales(closes: seq<real>, config: SmaConfig, k: real)
    requires config.Valid() && |closes| > config.slow && k > 0.0
    ensures Crossing(Scaled(closes, k), config) == Crossing(closes, config)
  {
    var earlier := closes[..|closes| - 1];
    assert Scaled(closes, k)[..|closes| - 1] == Scaled(earlier, k);
    DifferenceScales(closes, config, k);
    DifferenceScales(earlier, config, k);
    SideScales(Difference(earlier, config), Difference(closes, config), k);
  }

  lemma VerdictScales(config: SmaConfig, o: Order, side: Option<Side>, last: Candle, now: Instant, k: real)
    requires k > 0.0
    ensures Verdict(config, o, side, Candle(last.closedAt, Times(last.close, k)), now)
         == Repriced(Verdict(config, o, side, last, now), k)
  {
    if side.Some? {
      BracketScales(config, o, side.value, last, now, k);
      var s := Bracket(config, o, side.value, last, now);
      SignOfProduct(s.entry, k);
      SignOfProduct(s.stopLoss, k);
      SignOfProduct(s.takeProfit, k);
      OrderScales(s.stopLoss, s.entry, k);
      OrderScales(s.entry, s.takeProfit, k);
    }
  }

  lemma OrderScales(x: real, y: real, k: real)
    requires k > 0.0
    ensures (Times(x, k) < Times(y, k) <==> x < y) && (Times(x, k) > Times(y, k) <==> x > y)
  {
    SignOfProduct(x - y, k);
  }

  lemma SameTimes(candles: seq<Candle>, k: real, now: Instant)
    ensures InFuture(ScaledCandles(candles, k), now) == InFuture(candles, now)
    ensures Chronological(ScaledCandles(candles, k)) == Chronological(candles)
  {
    var scaled := ScaledCandles(candles, k);
    assert forall i | 0 <= i < |candles| :: scaled[i].closedAt == candles[i].closedAt;
  }

  lemma BracketScales(config: SmaConfig, o: Order, side: Side, last: Candle, now: Instant, k: real)
    ensures Signalled(Bracket(config, o, side, Candle(last.closedAt, Times(last.close, k)), now))
         == Repriced(Signalled(Bracket(config, o, side, last, now)), k)
  {
    var d := last.close * config.stopFraction;
    assert last.close * k * config.stopFraction == d * k;
    assert d * k * config.rewardRisk == d * config.rewardRisk * k;
  }
}
