/** The two deterministic gates (services/risk_engine/engine.py and
    services/prop_firm_engine/engine.py), run one after the other by the service. */
module RiskGate {
  import opened Contracts

  /** Everything one evaluation looks at.  The time zone the risk engine is given
      is the one of the prop rules, as its only caller passes it. */
  datatype Facts = Facts(
    signal: Signal, account: AccountState, market: MarketState,
    policy: RiskPolicy, rules: PropRules, killed: bool, now: Instant)
  {
    function Stamped(s: Stamp): Instant {
      match s
      case SignalStamp => signal.createdAt
      case AccountStamp => account.asOf
      case MarketStamp => market.asOf
      case NewsStamp => market.newsCheckedAt
    }

    /** Equity left when all open risk and the whole new risk are lost. */
    function Projected(): real {
      account.equity - account.openRisk - signal.RiskAmount()
    }
  }

  function DailyFloor(a: AccountState, fraction: real): real {
    a.dayStartBalance - a.initialBalance * fraction
  }

  function TotalFloor(initialBalance: real, fraction: real): real {
    initialBalance * (1.0 - fraction)
  }

  predicate NewsNear(events: seq<Instant>, now: Instant, minutes: int) {
    exists e | e in events :: Distance(e, now) <= minutes * 60 * SECOND
  }

  /** The condition under which each reason is reported. */
  predicate Blocks(env: Env, f: Facts, r: Reason) {
    match r
    case GlobalKillSwitch => f.killed
    case AccountDisabled => !f.account.enabled
    case Disconnected => !f.market.connected
    case PlatformNotReady => !f.market.platformReady
    case StaleOrFuture(s) =>
      f.now < f.Stamped(s) || f.now - f.Stamped(s) > f.policy.maxDataAgeSeconds * SECOND
    case DailyBaselineNotRolled => f.account.riskDay != env.dayOf(f.rules.zone, f.now)
    case NewsUnknown => !f.market.newsKnown
    case HighImpactNews => NewsNear(f.market.highImpactEvents, f.now, f.policy.newsWindowMinutes)
    case TradeRiskLimit => f.signal.RiskAmount() > f.account.equity * f.policy.riskPerTrade
    case OpenRiskLimit => f.account.openRisk + f.signal.RiskAmount() > f.account.equity * f.policy.maxOpenRisk
    case DailyLossLimit => f.Projected() <= DailyFloor(f.account, f.policy.dailyLoss)
    case TotalLossLimit => f.Projected() <= TotalFloor(f.account.initialBalance, f.policy.totalLoss)
    case PositionLimit => f.account.openPositions >= f.policy.maxPositions
    case DailyTradeLimit => f.account.tradesToday >= f.policy.maxTradesDaily
    case LosingStreakLimit => f.account.consecutiveLosses >= f.policy.maxConsecutiveLosses
    case SpreadLimit => f.market.spread > f.policy.maxSpread
    case SlippageLimit => f.market.slippage > f.policy.maxSlippage
    case VolatilityLimit => f.market.volatility > f.policy.maxVolatility
    case PropDailyLossLimit => f.Projected() <= DailyFloor(f.account, f.rules.dailyLoss)
    case PropTotalLossLimit => f.Projected() <= TotalFloor(f.account.initialBalance, f.rules.totalLoss)
    case PropTargetReached => f.account.balance >= f.account.initialBalance * (1.0 + f.rules.profitTarget)
  }

  const RISK_ORDER: seq<Reason> := [
    GlobalKillSwitch, AccountDisabled, Disconnected, PlatformNotReady,
    StaleOrFuture(SignalStamp), StaleOrFuture(AccountStamp), StaleOrFuture(MarketStamp), StaleOrFuture(NewsStamp),
    DailyBaselineNotRolled, NewsUnknown, HighImpactNews,
    TradeRiskLimit, OpenRiskLimit, DailyLossLimit, TotalLossLimit,
    PositionLimit, DailyTradeLimit, LosingStreakLimit,
    SpreadLimit, SlippageLimit, VolatilityLimit]

  const PROP_ORDER: seq<Reason> := [PropDailyLossLimit, PropTotalLossLimit, PropTargetReached]

  /** One `if condition: reasons.append(r)` of the engines. */
  function AppendIf(reasons: seq<Reason>, condition: bool, r: Reason): seq<Reason> {
    if condition then reasons + [r] else reasons
  }

  /** Those of the first `n` reasons of `order` that block, in order: what a gate
      must report once it has gone through them. */
  function Select(env: Env, f: Facts, order: seq<Reason>, n: nat): seq<Reason>
    requires n <= |order|
  {
    if n == 0 then [] else AppendIf(Select(env, f, order, n - 1), Blocks(env, f, order[n - 1]), order[n - 1])
  }

  function RiskReasons(env: Env, f: Facts): seq<Reason> {
    Select(env, f, RISK_ORDER, |RISK_ORDER|)
  }

  function PropReasons(env: Env, f: Facts): seq<Reason> {
    Select(env, f, PROP_ORDER, |PROP_ORDER|)
  }

  /** The combined verdict the service stores: both lists, allowed when both are empty. */
  function Combined(env: Env, f: Facts): RiskDecision {
    var reasons := RiskReasons(env, f) + PropReasons(env, f);
    RiskDecision(reasons == [], reasons, f.signal.RiskAmount(), f.now)
  }

  lemma SelectNext(env: Env, f: Facts, order: seq<Reason>, n: nat)
    requires n < |order|
    ensures Select(env, f, order, n + 1) == AppendIf(Select(env, f, order, n), Blocks(env, f, order[n]), order[n])
  {
  }

  // The risk engine is a list of reasons grown in place, branch by branch.  Its
  // body is verified stretch by stretch; `Evaluate` runs the stretches in order.

  method Switches(env: Env, f: Facts) returns (reasons: seq<Reason>)
    ensures reasons == Select(env, f, RISK_ORDER, 4)
  {
    reasons := [];
    reasons := AppendIf(reasons, f.killed, GlobalKillSwitch);
    reasons := AppendIf(reasons, !f.account.enabled, AccountDisabled);
    reasons := AppendIf(reasons, !f.market.connected, Disconnected);
    reasons := AppendIf(reasons, !f.market.platformReady, PlatformNotReady);
    SelectNext(env, f, RISK_ORDER, 0);
    SelectNext(env, f, RISK_ORDER, 1);
    SelectNext(env, f, RISK_ORDER, 2);
    SelectNext(env, f, RISK_ORDER, 3);
  }

  const STAMPS: seq<Stamp> := [SignalStamp, AccountStamp, MarketStamp, NewsStamp]

  lemma NextStamp(env: Env, f: Facts, i: nat, stamped: Instant)
    requires i < 4 && stamped == f.Stamped(STAMPS[i])
    ensures Select(env, f, RISK_ORDER, 5 + i)
         == AppendIf(Select(env, f, RISK_ORDER, 4 + i),
                     f.now - stamped < 0 || f.now - stamped > f.policy.maxDataAgeSeconds * SECOND,
                     StaleOrFuture(STAMPS[i]))
  {
    SelectNext(env, f, RISK_ORDER, 4 + i);
    assert RISK_ORDER[4 + i] == StaleOrFuture(STAMPS[i]);
  }

  /** The loop over the four time stamps. */
  method Freshness(env: Env, f: Facts, before: seq<Reason>) returns (reasons: seq<Reason>)
    requires before == Select(env, f, RISK_ORDER, 4)
    ensures reasons == Select(env, f, RISK_ORDER, 8)
  {
    reasons := before;
    var stamps := [(SignalStamp, f.signal.createdAt), (AccountStamp, f.account.asOf),
                   (MarketStamp, f.market.asOf), (NewsStamp, f.market.newsCheckedAt)];
    for i := 0 to |stamps|
      invariant reasons == Select(env, f, RISK_ORDER, 4 + i)
    {
      assert stamps[i] == (STAMPS[i], f.Stamped(STAMPS[i]));
      NextStamp(env, f, i, stamps[i].1);
      var age := f.now - stamps[i].1;
      reasons := AppendIf(reasons, age < 0 || age > f.policy.maxDataAgeSeconds * SECOND, StaleOrFuture(stamps[i].0));
    }
  }

  method DayAndNews(env: Env, f: Facts, before: seq<Reason>) returns (reasons: seq<Reason>)
    requires before == Select(env, f, RISK_ORDER, 8)
    ensures reasons == Select(env, f, RISK_ORDER, 11)
  {
    reasons := before;
    reasons := AppendIf(reasons, f.account.riskDay != env.dayOf(f.rules.zone, f.now), DailyBaselineNotRolled);
    reasons := AppendIf(reasons, !f.market.newsKnown, NewsUnknown);
    var near := NewsNear(f.market.highImpactEvents, f.now, f.policy.newsWindowMinutes);
    reasons := AppendIf(reasons, near, HighImpactNews);
    SelectNext(env, f, RISK_ORDER, 8);
    SelectNext(env, f, RISK_ORDER, 9);
    SelectNext(env, f, RISK_ORDER, 10);
  }

  method MoneyAtRisk(env: Env, f: Facts, before: seq<Reason>) returns (reasons: seq<Reason>)
    requires before == Select(env, f, RISK_ORDER, 11)
    ensures reasons == Select(env, f, RISK_ORDER, 15)
  {
    reasons := before;
    var account, policy, risk := f.account, f.policy, f.signal.RiskAmount();
    reasons := AppendIf(reasons, risk > account.equity * policy.riskPerTrade, TradeRiskLimit);
    reasons := AppendIf(reasons, account.openRisk + risk > account.equity * policy.maxOpenRisk, OpenRiskLimit);
    var projected := account.equity - account.openRisk - risk;
    reasons := AppendIf(reasons, projected <= account.dayStartBalance - account.initialBalance * policy.dailyLoss,
                        DailyLossLimit);
    reasons := AppendIf(reasons, projected <= account.initialBalance * (1.0 - policy.totalLoss), TotalLossLimit);
    SelectNext(env, f, RISK_ORDER, 11);
    SelectNext(env, f, RISK_ORDER, 12);
    SelectNext(env, f, RISK_ORDER, 13);
    SelectNext(env, f, RISK_ORDER, 14);
  }

  method CountersAndMarket(env: Env, f: Facts, before: seq<Reason>) returns (reasons: seq<Reason>)
    requires before == Select(env, f, RISK_ORDER, 15)
    ensures reasons == RiskReasons(env, f)
  {
    reasons := before;
    var account, market, policy := f.account, f.market, f.policy;
    reasons := AppendIf(reasons, account.openPositions >= policy.maxPositions, PositionLimit);
    reasons := AppendIf(reasons, account.tradesToday >= policy.maxTradesDaily, DailyTradeLimit);
    reasons := AppendIf(reasons, account.consecutiveLosses >= policy.maxConsecutiveLosses, LosingStreakLimit);
    reasons := AppendIf(reasons, market.spread > policy.maxSpread, SpreadLimit);
    reasons := AppendIf(reasons, market.slippage > policy.maxSlippage, SlippageLimit);
    reasons := AppendIf(reasons, market.volatility > policy.maxVolatility, VolatilityLimit);
    SelectNext(env, f, RISK_ORDER, 15);
    SelectNext(env, f, RISK_ORDER, 16);
    SelectNext(env, f, RISK_ORDER, 17);
    SelectNext(env, f, RISK_ORDER, 18);
    SelectNext(env, f, RISK_ORDER, 19);
    SelectNext(env, f, RISK_ORDER, 20);
  }

  method Evaluate(env: Env, f: Facts) returns (d: RiskDecision)
    ensures d.reasons == RiskReasons(env, f)
    ensures d.allowed <==> forall r | r in RISK_ORDER :: !Blocks(env, f, r)
    ensures d.riskAmount == f.signal.RiskAmount() && d.checkedAt == f.now
  {
    var reasons := Switches(env, f);
    reasons := Freshness(env, f, reasons);
    reasons := DayAndNews(env, f, reasons);
    reasons := MoneyAtRisk(env, f, reasons);
    reasons := CountersAndMarket(env, f, reasons);
    SelectMembers(env, f, RISK_ORDER, |RISK_ORDER|);
    assert RISK_ORDER[..|RISK_ORDER|] == RISK_ORDER;
    d := RiskDecision(reasons == [], reasons, f.signal.RiskAmount(), f.now);
  }

  /** The prop-firm engine, which sees only the signal, the account and the rules. */
  method EvaluateProp(env: Env, f: Facts) returns (reasons: seq<Reason>)
    ensures reasons == PropReasons(env, f)
  {
    reasons := [];
    var account, rules := f.account, f.rules;
    var projected := account.equity - account.openRisk - f.signal.RiskAmount();
    reasons := AppendIf(reasons, projected <= account.dayStartBalance - account.initialBalance * rules.dailyLoss,
                        PropDailyLossLimit);
    reasons := AppendIf(reasons, projected <= account.initialBalance * (1.0 - rules.totalLoss), PropTotalLossLimit);
    reasons := AppendIf(reasons, account.balance >= account.initialBalance * (1.0 + rules.profitTarget),
                        PropTargetReached);
    SelectNext(env, f, PROP_ORDER, 0);
    SelectNext(env, f, PROP_ORDER, 1);
    SelectNext(env, f, PROP_ORDER, 2);
  }

  /** A reason is reported exactly when it is among those examined and its condition holds. */
  lemma {:induction false} SelectMembers(env: Env, f: Facts, order: seq<Reason>, n: nat)
    requires n <= |order|
    ensures forall r :: r in Select(env, f, order, n) <==> r in order[..n] && Blocks(env, f, r)
    ensures Select(env, f, order, n) == [] <==> forall r | r in order[..n] :: !Blocks(env, f, r)
  {
    if n > 0 {
      SelectMembers(env, f, order, n - 1);
      assert order[..n] == order[..n - 1] + [order[n - 1]];
      assert Select(env, f, order, n) == [] ==> Select(env, f, order, n - 1) == [];
    }
  }
}
