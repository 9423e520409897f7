/** The reference strategy (services/strategy_engine/engine.py): a signal when the fast
    average crosses the slow one on the last closed bar.  Averages are exact. */
module SmaStrategy {
  import opened Contracts

  datatype Candle = Candle(closedAt: Instant, close: real)

  datatype SmaConfig = SmaConfig(fast: int, slow: int, stopFraction: real, rewardRisk: real)
  {
    predicate Valid() {
      && fast >= 2 && slow >= 3
      && 0.0 < stopFraction < 1.0 && rewardRisk > 0.0
      && fast < slow
      && stopFraction * rewardRisk < 1.0
    }
  }

  datatype Error = FutureCandle | NotChronological | InvalidSignal

  datatype Generated = Refused(error: Error) | NoSignal | Signalled(signal: Signal)

  /** What the caller fixes besides the candles. */
  datatype Order = Order(symbol: string, timeframe: string, quantity: real, valuePerUnit: real, version: string)

  predicate ValidOrder(o: Order) {
    && 1 <= |o.symbol| <= 32 && 1 <= |o.timeframe| <= 16 && 1 <= |o.version| <= 128
    && o.quantity > 0.0 && o.valuePerUnit > 0.0
  }

  predicate ValidCandles(candles: seq<Candle>) {
    forall i | 0 <= i < |candles| :: candles[i].close > 0.0
  }

  /** The sum of the first `n` values. */
  function Total(values: seq<real>, n: nat): real
    requires n <= |values|
  {
    if n == 0 then 0.0 else Total(values, n - 1) + values[n - 1]
  }

  function Sum(values: seq<real>): real {
    Total(values, |values|)
  }

  /** `sum(values[-n:]) / n` */
  function Average(values: seq<real>, n: int): real
    requires 0 < n <= |values|
  {
    Sum(values[|values| - n..]) / n as real
  }

  function Closes(candles: seq<Candle>): seq<real> {
    seq(|candles|, i requires 0 <= i < |candles| => candles[i].close)
  }

  /** Fast minus slow average. */
  function Difference(closes: seq<real>, config: SmaConfig): real
    requires config.Valid() && |closes| >= config.slow
  {
    Average(closes, config.fast) - Average(closes, config.slow)
  }

  /** The crossing test: from at or below to above, or from at or above to below. */
  function SideOf(before: real, after: real): Option<Side> {
    if before <= 0.0 < after then Some(Buy) else if before >= 0.0 > after then Some(Sell) else None
  }

  predicate InFuture(candles: seq<Candle>, now: Instant) {
    exists i | 0 <= i < |candles| :: candles[i].closedAt > now
  }

  predicate Chronological(candles: seq<Candle>) {
    forall i | 0 <= i < |candles| - 1 :: candles[i].closedAt < candles[i + 1].closedAt
  }

  /** A move away from the entry, in the direction of the trade. */
  function Away(side: Side, entry: real, move: real): real {
    if side == Buy then entry + move else entry - move
  }

  function Bracket(config: SmaConfig, o: Order, side: Side, last: Candle, now: Instant): Signal {
    var entry := last.close;
    var distance := Times(entry, config.stopFraction);
    var target := Times(distance, config.rewardRisk);
    Signal(o.symbol, side, entry, Away(side, entry, -distance), Away(side, entry, target),
           o.quantity, o.valuePerUnit, 0.0, o.timeframe, o.version, now, ["SMA_CROSS"],
           SmaContext(last.closedAt, config.fast, config.slow, config.stopFraction, config.rewardRisk))
  }

  /** The signal the crossing calls for; building it validates its fields. */
  function Verdict(config: SmaConfig, o: Order, side: Option<Side>, last: Candle, now: Instant): Generated {
    match side
    case None => NoSignal
    case Some(d) =>
      var s := Bracket(config, o, d, last, now);
      if s.Valid() then Signalled(s) else Refused(InvalidSignal)
  }

  /** Which way the averages cross on the last of the closes. */
  function Crossing(closes: seq<real>, config: SmaConfig): Option<Side>
    requires config.Valid() && |closes| > config.slow
  {
    SideOf(Difference(closes[..|closes| - 1], config), Difference(closes, config))
  }

  function Generate(config: SmaConfig, candles: seq<Candle>, now: Instant, o: Order): Generated
    requires config.Valid()
  {
    if InFuture(candles, now) then Refused(FutureCandle)
    else if !Chronological(candles) then Refused(NotChronological)
    else if |candles| < config.slow + 1 then NoSignal
    else Verdict(config, o, Crossing(Closes(candles), config), candles[|candles| - 1], now)
  }

  function Times(x: real, k: real): real {
    x * k
  }

  // ---- sums ----------------------------------------------------------------

  lemma {:induction false} TotalOfFront(a: seq<real>, b: seq<real>, n: nat)
    requires n <= |a|
    ensures Total(a + b, n) == Total(a, n)
  {
    if n > 0 {
      TotalOfFront(a, b, n - 1);
    }
  }

  lemma {:induction false} TotalOfConcat(a: seq<real>, b: seq<real>, n: nat)
    requires n <= |b|
    ensures Total(a + b, |a| + n) == Sum(a) + Total(b, n)
  {
    if n == 0 {
      TotalOfFront(a, b, |a|);
    } else {
      TotalOfConcat(a, b, n - 1);
    }
  }

  lemma SumOfConcat(a: seq<real>, b: seq<real>)
    ensures Sum(a + b) == Sum(a) + Sum(b)
  {
    TotalOfConcat(a, b, |b|);
  }

  lemma SumAbove(values: seq<real>, x: real)
    requires values != [] && values[|values| - 1] > x && forall i | 0 <= i < |values| :: values[i] >= x
    ensures Sum(values) > Times(|values| as real, x)
  {
    var n := |values| - 1;
    TotalAtLeast(values, n, x);
    assert Times((n + 1) as real, x) == Times(n as real, x) + x;
  }

  lemma SumBelow(values: seq<real>, x: real)
    requires values != [] && values[|values| - 1] < x && forall i | 0 <= i < |values| :: values[i] <= x
    ensures Sum(values) < Times(|values| as real, x)
  {
    var n := |values| - 1;
    TotalAtMost(values, n, x);
    assert Times((n + 1) as real, x) == Times(n as real, x) + x;
  }

  lemma {:induction false} TotalAtLeast(values: seq<real>, n: nat, x: real)
    requires n <= |values| && forall i | 0 <= i < n :: values[i] >= x
    ensures Total(values, n) >= Times(n as real, x)
  {
    if n > 0 {
      TotalAtLeast(values, n - 1, x);
      assert Times(n as real, x) == Times((n - 1) as real, x) + x;
    }
  }

  lemma {:induction false} TotalAtMost(values: seq<real>, n: nat, x: real)
    requires n <= |values| && forall i | 0 <= i < n :: values[i] <= x
    ensures Total(values, n) <= Times(n as real, x)
  {
    if n > 0 {
      TotalAtMost(values, n - 1, x);
      assert Times(n as real, x) == Times((n - 1) as real, x) + x;
    }
  }

  function Scaled(values: seq<real>, k: real): (r: seq<real>)
    ensures |r| == |values| && forall i | 0 <= i < |values| :: r[i] == Times(values[i], k)
  {
    seq(|values|, i requires 0 <= i < |values| => Times(values[i], k))
  }

  lemma {:induction false} TotalScales(values: seq<real>, n: nat, k: real)
    requires n <= |values|
    ensures Total(Scaled(values, k), n) == Times(Total(values, n), k)
  {
    if n > 0 {
      TotalScales(values, n - 1, k);
      assert Times(Total(values, n), k) == Times(Total(values, n - 1), k) + Times(values[n - 1], k);
    }
  }
}
