/** What each reason of the combined gate says about the inputs, threshold by threshold, and
    in which order reasons come. */
module GateMeaning {
  import opened Contracts
  import opened RiskGate
  import opened GateTheorems

  function Reasons(env: Env, f: Facts): seq<Reason> {
    Combined(env, f).reasons
  }

  lemma SwitchesMean(env: Env, f: Facts)
    ensures GlobalKillSwitch !in Reasons(env, f) <==> !f.killed
    ensures AccountDisabled !in Reasons(env, f) <==> f.account.enabled
    ensures Disconnected !in Reasons(env, f) <==> f.market.connected
    ensures PlatformNotReady !in Reasons(env, f) <==> f.market.platformReady
  {
    ReasonsAreExactlyTheBlockingFacts(env, f);
    assert Blocks(env, f, Disconnected) <==> !f.market.connected;
    assert Blocks(env, f, PlatformNotReady) <==> !f.market.platformReady;
  }

  /** A stamp is fresh when it is no later than the clock and no older than the limit; instants
      are microseconds and the limit is in seconds. */
  predicate IsFreshStamp(stamp: Instant, now: Instant, seconds: int) {
    0 <= now - stamp <= seconds * 1_000_000
  }

  lemma StampsMean(env: Env, f: Facts)
    ensures var R, limit := Reasons(env, f), f.policy.maxDataAgeSeconds;
            && (StaleOrFuture(SignalStamp) !in R <==> IsFreshStamp(f.signal.createdAt, f.now, limit))
            && (StaleOrFuture(AccountStamp) !in R <==> IsFreshStamp(f.account.asOf, f.now, limit))
            && (StaleOrFuture(MarketStamp) !in R <==> IsFreshStamp(f.market.asOf, f.now, limit))
            && (StaleOrFuture(NewsStamp) !in R <==> IsFreshStamp(f.market.newsCheckedAt, f.now, limit))
  {
    ReasonsAreExactlyTheBlockingFacts(env, f);
    assert Blocks(env, f, StaleOrFuture(SignalStamp))
      <==> !IsFreshStamp(f.signal.createdAt, f.now, f.policy.maxDataAgeSeconds);
    assert Blocks(env, f, StaleOrFuture(AccountStamp))
      <==> !IsFreshStamp(f.account.asOf, f.now, f.policy.maxDataAgeSeconds);
    assert Blocks(env, f, StaleOrFuture(MarketStamp))
      <==> !IsFreshStamp(f.market.asOf, f.now, f.policy.maxDataAgeSeconds);
    assert Blocks(env, f, StaleOrFuture(NewsStamp))
      <==> !IsFreshStamp(f.market.newsCheckedAt, f.now, f.policy.maxDataAgeSeconds);
  }

  /** No event is within the window, given in minutes, before or after the clock. */
  predicate NewsAreFar(events: seq<Instant>, now: Instant, minutes: int) {
    forall k | 0 <= k < |events| ::
      events[k] < now - minutes * 60_000_000 || events[k] > now + minutes * 60_000_000
  }

  lemma NearNewsMean(events: seq<Instant>, now: Instant, minutes: int)
    ensures !NewsNear(events, now, minutes) <==> NewsAreFar(events, now, minutes)
  {
    if NewsAreFar(events, now, minutes) {
      forall e | e in events
        ensures Distance(e, now) > minutes * 60 * SECOND
      {
        var k :| 0 <= k < |events| && events[k] == e;
      }
    } else {
      var k :| 0 <= k < |events|
        && !(events[k] < now - minutes * 60_000_000 || events[k] > now + minutes * 60_000_000);
      assert events[k] in events && Distance(events[k], now) <= minutes * 60 * SECOND;
    }
  }

  lemma DayAndNewsMean(env: Env, f: Facts)
    ensures var R := Reasons(env, f);
            && (DailyBaselineNotRolled !in R <==> f.account.riskDay == env.dayOf(f.rules.zone, f.now))
            && (NewsUnknown !in R <==> f.market.newsKnown)
            && (HighImpactNews !in R <==> NewsAreFar(f.market.highImpactEvents, f.now, f.policy.newsWindowMinutes))
  {
    ReasonsAreExactlyTheBlockingFacts(env, f);
    NearNewsMean(f.market.highImpactEvents, f.now, f.policy.newsWindowMinutes);
    assert Blocks(env, f, DailyBaselineNotRolled) <==> f.account.riskDay != env.dayOf(f.rules.zone, f.now);
    assert Blocks(env, f, NewsUnknown) <==> !f.market.newsKnown;
    assert Blocks(env, f, HighImpactNews)
      <==> NewsNear(f.market.highImpactEvents, f.now, f.policy.newsWindowMinutes);
  }

  /** The money that can be lost on the signal: its stop distance times its size, and its costs. */
  lemma RiskMeans(f: Facts)
    requires f.signal.Valid()
    ensures var s := f.signal;
            var distance := if s.side == Buy then s.entry - s.stopLoss else s.stopLoss - s.entry;
            distance > 0.0 && s.RiskAmount() == distance * s.quantity * s.valuePerUnit + s.costReserve > 0.0
  {
    SizeIsPositive(f.signal);
  }

  lemma SizeIsPositive(s: Signal)
    requires s.Valid()
    ensures Abs(s.entry - s.stopLoss) * s.quantity * s.valuePerUnit > 0.0
  {
    assert Abs(s.entry - s.stopLoss) * s.quantity > 0.0;
  }

  lemma RiskLimitsMean(env: Env, f: Facts)
    ensures var R, a, risk := Reasons(env, f), f.account, f.signal.RiskAmount();
            && (TradeRiskLimit !in R <==> risk <= a.equity * f.policy.riskPerTrade)
            && (OpenRiskLimit !in R <==> a.openRisk + risk <= a.equity * f.policy.maxOpenRisk)
  {
    ReasonsAreExactlyTheBlockingFacts(env, f);
    assert Blocks(env, f, TradeRiskLimit)
      <==> f.signal.RiskAmount() > f.account.equity * f.policy.riskPerTrade;
    assert Blocks(env, f, OpenRiskLimit)
      <==> f.account.openRisk + f.signal.RiskAmount() > f.account.equity * f.policy.maxOpenRisk;
  }

  lemma FloorsMean(env: Env, f: Facts)
    ensures var R, a, p, q := Reasons(env, f), f.account, f.policy, f.rules;
            var left := a.equity - a.openRisk - f.signal.RiskAmount();
            && (DailyLossLimit !in R <==> left > a.dayStartBalance - a.initialBalance * p.dailyLoss)
            && (TotalLossLimit !in R <==> left > a.initialBalance * (1.0 - p.totalLoss))
            && (PropDailyLossLimit !in R <==> left > a.dayStartBalance - a.initialBalance * q.dailyLoss)
            && (PropTotalLossLimit !in R <==> left > a.initialBalance * (1.0 - q.totalLoss))
  {
    ReasonsAreExactlyTheBlockingFacts(env, f);
    assert Blocks(env, f, DailyLossLimit)
      <==> f.Projected() <= f.account.dayStartBalance - f.account.initialBalance * f.policy.dailyLoss;
    assert Blocks(env, f, TotalLossLimit)
      <==> f.Projected() <= f.account.initialBalance * (1.0 - f.policy.totalLoss);
    assert Blocks(env, f, PropDailyLossLimit)
      <==> f.Projected() <= f.account.dayStartBalance - f.account.initialBalance * f.rules.dailyLoss;
    assert Blocks(env, f, PropTotalLossLimit)
      <==> f.Projected() <= f.account.initialBalance * (1.0 - f.rules.totalLoss);
  }

  lemma CountersMean(env: Env, f: Facts)
    ensures var R, a, p := Reasons(env, f), f.account, f.policy;
            && (PositionLimit !in R <==> a.openPositions < p.maxPositions)
            && (DailyTradeLimit !in R <==> a.tradesToday < p.maxTradesDaily)
            && (LosingStreakLimit !in R <==> a.consecutiveLosses < p.maxConsecutiveLosses)
            && (PropTargetReached !in R <==> a.balance < a.initialBalance * (1.0 + f.rules.profitTarget))
  {
    ReasonsAreExactlyTheBlockingFacts(env, f);
    assert Blocks(env, f, PositionLimit) <==> f.account.openPositions >= f.policy.maxPositions;
    assert Blocks(env, f, DailyTradeLimit) <==> f.account.tradesToday >= f.policy.maxTradesDaily;
    assert Blocks(env, f, LosingStreakLimit) <==> f.account.consecutiveLosses >= f.policy.maxConsecutiveLosses;
    assert Blocks(env, f, PropTargetReached)
      <==> f.account.balance >= f.account.initialBalance * (1.0 + f.rules.profitTarget);
  }

  lemma MarketMeans(env: Env, f: Facts)
    ensures var R, m, p := Reasons(env, f), f.market, f.policy;
            && (SpreadLimit !in R <==> m.spread <= p.maxSpread)
            && (SlippageLimit !in R <==> m.slippage <= p.maxSlippage)
            && (VolatilityLimit !in R <==> m.volatility <= p.maxVolatility)
  {
    ReasonsAreExactlyTheBlockingFacts(env, f);
    assert Blocks(env, f, SpreadLimit) <==> f.market.spread > f.policy.maxSpread;
    assert Blocks(env, f, SlippageLimit) <==> f.market.slippage > f.policy.maxSlippage;
    assert Blocks(env, f, VolatilityLimit) <==> f.market.volatility > f.policy.maxVolatility;
  }

  // ---- approval, in one piece ----------------------------------------------

  /** The tests that are not about money at risk. */
  ghost predicate IsClear(env: Env, f: Facts) {
    var a, m, p := f.account, f.market, f.policy;
    && !f.killed && a.enabled && m.connected && m.platformReady
    && IsFreshStamp(f.signal.createdAt, f.now, p.maxDataAgeSeconds)
    && IsFreshStamp(a.asOf, f.now, p.maxDataAgeSeconds)
    && IsFreshStamp(m.asOf, f.now, p.maxDataAgeSeconds)
    && IsFreshStamp(m.newsCheckedAt, f.now, p.maxDataAgeSeconds)
    && a.riskDay == env.dayOf(f.rules.zone, f.now)
    && m.newsKnown && NewsAreFar(m.highImpactEvents, f.now, p.newsWindowMinutes)
    && a.openPositions < p.maxPositions && a.tradesToday < p.maxTradesDaily
    && a.consecutiveLosses < p.maxConsecutiveLosses
    && m.spread <= p.maxSpread && m.slippage <= p.maxSlippage && m.volatility <= p.maxVolatility
    && a.balance < a.initialBalance * (1.0 + f.rules.profitTarget)
  }

  lemma ClearReasons(env: Env, f: Facts)
    ensures (forall r | !IsMoneyReason(r) :: r !in Reasons(env, f)) <==> IsClear(env, f)
  {
    SwitchesMean(env, f);
    StampsMean(env, f);
    DayAndNewsMean(env, f);
    CountersMean(env, f);
    MarketMeans(env, f);
    if IsClear(env, f) {
      forall r | !IsMoneyReason(r)
        ensures r !in Reasons(env, f)
      {
        if r.StaleOrFuture? {
          assert r.stamp == SignalStamp || r.stamp == AccountStamp || r.stamp == MarketStamp || r.stamp == NewsStamp;
        }
      }
    }
  }

  /** The closed form of everything the sizing test leaves open. */
  lemma OtherwiseClearMeans(env: Env, f: Facts)
    ensures OtherwiseClear(env, f) <==> IsClear(env, f)
  {
    ReasonsAreExactlyTheBlockingFacts(env, f);
    ClearReasons(env, f);
  }

  /** A scenario is approved exactly when it is clear, its risk is within the trade and the
      open-risk limit, and losing it with all open risk stays above all four floors. */
  lemma ApprovalMeans(env: Env, f: Facts)
    ensures var a, p, q, risk := f.account, f.policy, f.rules, f.signal.RiskAmount();
            var left := a.equity - a.openRisk - risk;
            Combined(env, f).allowed <==>
              && IsClear(env, f)
              && risk <= a.equity * p.riskPerTrade && a.openRisk + risk <= a.equity * p.maxOpenRisk
              && left > a.dayStartBalance - a.initialBalance * p.dailyLoss
              && left > a.initialBalance * (1.0 - p.totalLoss)
              && left > a.dayStartBalance - a.initialBalance * q.dailyLoss
              && left > a.initialBalance * (1.0 - q.totalLoss)
  {
    ClearReasons(env, f);
    RiskLimitsMean(env, f);
    FloorsMean(env, f);
    ReasonsAreExactlyTheBlockingFacts(env, f);
  }

  lemma DecisionMeans(env: Env, f: Facts)
    ensures var d := Combined(env, f);
            d.allowed == (d.reasons == []) && d.riskAmount == f.signal.RiskAmount() && d.checkedAt == f.now
  {
  }

  // ---- order ---------------------------------------------------------------

  /** The place of a reason in a list. */
  function Rank(r: Reason): nat {
    match r
    case GlobalKillSwitch => 0
    case AccountDisabled => 1
    case Disconnected => 2
    case PlatformNotReady => 3
    case StaleOrFuture(s) =>
      (match s case SignalStamp => 4 case AccountStamp => 5 case MarketStamp => 6 case NewsStamp => 7)
    case DailyBaselineNotRolled => 8
    case NewsUnknown => 9
    case HighImpactNews => 10
    case TradeRiskLimit => 11
    case OpenRiskLimit => 12
    case DailyLossLimit => 13
    case TotalLossLimit => 14
    case PositionLimit => 15
    case DailyTradeLimit => 16
    case LosingStreakLimit => 17
    case SpreadLimit => 18
    case SlippageLimit => 19
    case VolatilityLimit => 20
    case PropDailyLossLimit => 21
    case PropTotalLossLimit => 22
    case PropTargetReached => 23
  }

  /** Ranks rise along a list, from `low` to below `high`. */
  predicate Rises(reasons: seq<Reason>, low: nat, high: nat) {
    && (forall i | 0 <= i < |reasons| :: low <= Rank(reasons[i]) < high)
    && (forall i, j | 0 <= i < j < |reasons| :: Rank(reasons[i]) < Rank(reasons[j]))
  }

  lemma {:induction false} SelectRises(env: Env, f: Facts, order: seq<Reason>, n: nat, low: nat)
    requires n <= |order| && forall k | 0 <= k < |order| :: Rank(order[k]) == low + k
    ensures Rises(Select(env, f, order, n), low, low + n)
  {
    if n > 0 {
      SelectRises(env, f, order, n - 1, low);
    }
  }

  /** Reasons come in the order in which the engines examine them, each at most once. */
  lemma ReasonsComeInOrder(env: Env, f: Facts)
    ensures var R := Reasons(env, f); forall i, j | 0 <= i < j < |R| :: Rank(R[i]) < Rank(R[j])
  {
    SelectRises(env, f, RISK_ORDER, 21, 0);
    SelectRises(env, f, PROP_ORDER, 3, 21);
    var a, b := RiskReasons(env, f), PropReasons(env, f);
    assert Rises(a, 0, 21) && Rises(b, 21, 24);
    RisesTogether(a, b);
  }

  lemma RisesTogether(a: seq<Reason>, b: seq<Reason>)
    requires Rises(a, 0, 21) && Rises(b, 21, 24)
    ensures Rises(a + b, 0, 24)
  {
  }
}
