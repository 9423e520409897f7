/** From the strategy to the gate: what it generates is a valid signal the risk engine
    will not find stale. */
module StrategyGate {
  import opened Contracts
  import opened RiskGate
  import opened GateTheorems
  import opened SmaStrategy
  import opened SmaTheorems

  /** What a signal the strategy builds promises: its bracket, its size and labels as ordered, no
      cost reserve, and its risk. */
  ghost predicate Fits(config: SmaConfig, o: Order, s: Signal, last: Candle, now: Instant) {
    && s.Valid()
    && s.entry == last.close && s.createdAt == now
    && Abs(s.entry - s.stopLoss) == last.close * config.stopFraction
    && Abs(s.takeProfit - s.entry) == config.rewardRisk * Abs(s.entry - s.stopLoss)
    && s.symbol == o.symbol && s.timeframe == o.timeframe && s.strategyVersion == o.version
    && s.quantity == o.quantity && s.valuePerUnit == o.valuePerUnit && s.costReserve == 0.0
    && s.reasons == ["SMA_CROSS"]
    && s.RiskAmount() == last.close * config.stopFraction * o.quantity * o.valuePerUnit
  }

  lemma BracketFits(config: SmaConfig, o: Order, side: Side, last: Candle, now: Instant)
    requires config.Valid() && ValidOrder(o) && last.close > 0.0
    ensures Fits(config, o, Bracket(config, o, side, last, now), last, now)
  {
    BracketIsPositive(last.close, config.stopFraction, config.rewardRisk);
    var s := Bracket(config, o, side, last, now);
    var distance := Times(last.close, config.stopFraction);
    assert Abs(s.entry - s.stopLoss) == distance && Abs(s.takeProfit - s.entry) == Times(distance, config.rewardRisk);
  }

  /** For every legal configuration and order, building the signal never fails; a generated
      signal is a valid bracket of positive prices on its side, its stop is the stop fraction
      of the last close away and its target exactly `rewardRisk` times that, its size and
      labels are those ordered, its risk is close times stop fraction times the ordered
      size, and it is dated at the call. */
  lemma GeneratedSignalsFitTheGate(config: SmaConfig, candles: seq<Candle>, now: Instant, o: Order)
    requires config.Valid() && ValidOrder(o) && ValidCandles(candles)
    ensures Generate(config, candles, now, o) != Refused(InvalidSignal)
    ensures Generate(config, candles, now, o).Signalled? ==>
              Fits(config, o, Generate(config, candles, now, o).signal, candles[|candles| - 1], now)
  {
    if !InFuture(candles, now) && Chronological(candles) && |candles| > config.slow {
      var side := Crossing(Closes(candles), config);
      GenerateByCrossing(config, candles, now, o, side);
      if side.Some? {
        BracketFits(config, o, side.value, candles[|candles| - 1], now);
      }
    }
  }

  lemma BracketIsPositive(entry: real, fraction: real, reward: real)
    requires entry > 0.0 && 0.0 < fraction < 1.0 && reward > 0.0 && fraction * reward < 1.0
    ensures 0.0 < Times(entry, fraction) < entry
    ensures 0.0 < Times(Times(entry, fraction), reward) < entry
  {
    Shrinks(entry, fraction);
    Shrinks(entry, fraction * reward);
    assert Times(Times(entry, fraction), reward) == Times(entry, fraction * reward);
  }

  lemma Shrinks(x: real, fraction: real)
    requires x > 0.0 && 0.0 < fraction < 1.0
    ensures 0.0 < Times(x, fraction) < x
  {
    SignOfProduct(fraction, x);
    OrderScales(fraction, 1.0, x);
    assert Times(fraction, x) == Times(x, fraction);
  }

  /** Evaluated at the instant it was generated, such a signal is never reported stale. */
  lemma GeneratedSignalsAreFresh(env: Env, config: SmaConfig, candles: seq<Candle>, o: Order, f: Facts)
    requires config.Valid() && f.policy.Valid()
    requires Generate(config, candles, f.now, o) == Signalled(f.signal)
    ensures StaleOrFuture(SignalStamp) !in Combined(env, f).reasons
  {
    ReasonsAreExactlyTheBlockingFacts(env, f);
    assert !Blocks(env, f, StaleOrFuture(SignalStamp));
  }

  // ---- strict alternation fails --------------------------------------------

  /** Six bars whose averages over two and three bars part, touch, and part the same way. */
  const TOUCHING: seq<Candle> :=
    [Candle(0, 10.0), Candle(1, 9.0), Candle(2, 9.0), Candle(3, 12.0), Candle(4, 6.0), Candle(5, 20.0)]

  const TWO_AND_THREE: SmaConfig := SmaConfig(2, 3, 0.01, 2.0)

  lemma SumOfThree(s: seq<real>)
    requires |s| == 3
    ensures Sum(s[1..]) == s[1] + s[2] && Sum(s) == s[0] + s[1] + s[2]
  {
    assert Total(s, 0) == 0.0 && Total(s, 1) == s[0];
    assert Total(s, 2) == s[0] + s[1];
    assert Total(s[1..], 0) == 0.0 && Total(s[1..], 1) == s[1];
  }

  lemma LastThreeBars(closes: seq<real>, n: nat)
    requires 3 <= n <= |closes|
    ensures At(closes, TWO_AND_THREE, n)
         == (closes[n - 2] + closes[n - 1]) / 2.0 - (closes[n - 3] + closes[n - 2] + closes[n - 1]) / 3.0
  {
    var last := closes[..n][n - 3..];
    SumOfThree(last);
    assert last[1..] == closes[..n][n - 2..];
  }

  lemma VerdictHasSide(config: SmaConfig, o: Order, side: Option<Side>, last: Candle, now: Instant)
    requires config.Valid() && ValidOrder(o) && last.close > 0.0
    ensures var g := Verdict(config, o, side, last, now);
            if side.None? then g == NoSignal else g.Signalled? && g.signal.side == side.value
  {
    if side.Some? {
      BracketFits(config, o, side.value, last, now);
    }
  }

  /** On a legal history the strategy signals exactly when it has more than `slow` bars and the
      means of the last fast and slow closes cross at the newest, and on the side they cross to. */
  lemma SignalsAreCrossings(config: SmaConfig, candles: seq<Candle>, now: Instant, o: Order)
    requires config.Valid() && ValidOrder(o) && ValidCandles(candles)
    requires Chronological(candles) && !InFuture(candles, now)
    ensures var g, closes, n := Generate(config, candles, now, o), Closes(candles), |candles|;
            if n <= config.slow then g == NoSignal
            else
              var fast0, slow0 := Mean(closes, config.fast, n - 1), Mean(closes, config.slow, n - 1);
              var fast1, slow1 := Mean(closes, config.fast, n), Mean(closes, config.slow, n);
              && (g.Signalled? && g.signal.side == Buy <==> fast0 <= slow0 && fast1 > slow1)
              && (g.Signalled? && g.signal.side == Sell <==> fast0 >= slow0 && fast1 < slow1)
              && (g.Signalled? || g == NoSignal)
  {
    var closes, n := Closes(candles), |candles|;
    if n > config.slow {
      SidesByMeans(closes, config, n);
      var side := Crossing(closes, config);
      assert closes[..n] == closes;
      assert side == SideAt(closes, config, n);
      GenerateByCrossing(config, candles, now, o, side);
      VerdictHasSide(config, o, side, candles[n - 1], now);
    }
  }

  lemma CallHasSide(config: SmaConfig, candles: seq<Candle>, o: Order, clock: nat -> Instant, n: nat)
    requires config.Valid() && ValidOrder(o) && config.slow < n <= |candles| && candles[n - 1].close > 0.0
    requires Chronological(candles[..n]) && !InFuture(candles[..n], clock(n))
    ensures var call, side := CallAt(config, candles, o, clock, n), SideAt(Closes(candles), config, n);
            if side.None? then call == NoSignal else call.Signalled? && call.signal.side == side.value
  {
    GenerateOnPrefixes(config, candles, clock(n), o, n);
    VerdictHasSide(config, o, SideAt(Closes(candles), config, n), candles[n - 1], clock(n));
  }

  lemma TouchingBarsAreLegal(n: nat)
    requires n <= 6
    ensures Chronological(TOUCHING[..n]) && !InFuture(TOUCHING[..n], n)
  {
  }

  lemma SidesOfTouching()
    ensures var closes := Closes(TOUCHING);
            && SideAt(closes, TWO_AND_THREE, 4) == Some(Buy) == SideAt(closes, TWO_AND_THREE, 6)
            && SideAt(closes, TWO_AND_THREE, 5).None?
  {
    var closes := Closes(TOUCHING);
    LastThreeBars(closes, 3);
    LastThreeBars(closes, 4);
    LastThreeBars(closes, 5);
    LastThreeBars(closes, 6);
  }

  lemma TouchingCall(o: Order, n: nat)
    requires ValidOrder(o) && 4 <= n <= 6
    ensures var call, side := CallAt(TWO_AND_THREE, TOUCHING, o, k => k, n), SideAt(Closes(TOUCHING), TWO_AND_THREE, n);
            if side.None? then call == NoSignal else call.Signalled? && call.signal.side == side.value
  {
    TouchingBarsAreLegal(n);
    CallHasSide(TWO_AND_THREE, TOUCHING, o, k => k, n);
  }

  /** The strategy can buy twice in a row: on the fourth and the sixth of these bars, with
      nothing in between. */
  lemma ASideCanRepeat(o: Order)
    requires ValidOrder(o)
    ensures var four, five, six := CallAt(TWO_AND_THREE, TOUCHING, o, k => k, 4),
                                   CallAt(TWO_AND_THREE, TOUCHING, o, k => k, 5),
                                   CallAt(TWO_AND_THREE, TOUCHING, o, k => k, 6);
            && four.Signalled? && four.signal.side == Buy
            && five == NoSignal
            && six.Signalled? && six.signal.side == Buy
  {
    SidesOfTouching();
    TouchingCall(o, 4);
    TouchingCall(o, 5);
    TouchingCall(o, 6);
  }
}
