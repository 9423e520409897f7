/** The validated records every engine works on (core/contracts.py).  Decimal
    amounts are exact reals, instants are whole microseconds (the resolution of
    a Python datetime) and a calendar day is a day number. */
module Contracts {
  type Instant = int
  type Day = int
  const SECOND: int := 1_000_000

  datatype Option<+T> = None | Some(value: T)

  /** What the code takes from the operating system: the local day of an instant
      in a named time zone, and whether that zone is known at all. */
  datatype Env = Env(dayOf: (string, Instant) -> Day, zoneKnown: string -> bool)

  function Abs(x: real): real {
    if x < 0.0 then -x else x
  }

  function Distance(a: Instant, b: Instant): nat {
    if a < b then b - a else a - b
  }

  predicate IsFraction(x: real) {
    0.0 < x <= 1.0
  }

  datatype Side = Buy | Sell

  /** The free-form `context` of a signal; the reference strategy records the bar
      it acted on and its parameters there. */
  datatype Context = NoContext
                   | SmaContext(lastClosedBar: Instant, fast: int, slow: int, stopFraction: real, rewardRisk: real)

  datatype Signal = Signal(
    symbol: string, side: Side, entry: real, stopLoss: real, takeProfit: real,
    quantity: real, valuePerUnit: real, costReserve: real,
    timeframe: string, strategyVersion: string, createdAt: Instant,
    reasons: seq<string>, context: Context)
  {
    /** The directional bracket: stop, entry and target in order for the side. */
    predicate BracketOk() {
      if side == Buy then stopLoss < entry < takeProfit else takeProfit < entry < stopLoss
    }

    predicate Valid() {
      && 1 <= |symbol| <= 32 && 1 <= |timeframe| <= 16 && 1 <= |strategyVersion| <= 128
      && entry > 0.0 && stopLoss > 0.0 && takeProfit > 0.0
      && quantity > 0.0 && valuePerUnit > 0.0 && costReserve >= 0.0
      && BracketOk()
    }

    function RiskAmount(): real {
      Abs(entry - stopLoss) * quantity * valuePerUnit + costReserve
    }
  }

  datatype RiskPolicy = RiskPolicy(
    riskPerTrade: real, maxOpenRisk: real, dailyLoss: real, totalLoss: real,
    maxPositions: int, maxTradesDaily: int, maxConsecutiveLosses: int,
    maxSpread: real, maxSlippage: real, maxVolatility: real,
    maxDataAgeSeconds: int, newsWindowMinutes: int)
  {
    predicate Valid() {
      && IsFraction(riskPerTrade) && IsFraction(maxOpenRisk) && IsFraction(dailyLoss) && IsFraction(totalLoss)
      && maxPositions > 0 && maxTradesDaily > 0 && maxConsecutiveLosses > 0
      && maxSpread > 0.0 && maxSlippage > 0.0 && maxVolatility > 0.0
      && maxDataAgeSeconds > 0 && newsWindowMinutes >= 0
    }
  }

  datatype AccountState = AccountState(
    initialBalance: real, balance: real, equity: real, dayStartBalance: real,
    riskDay: Day, openRisk: real, openPositions: int, tradesToday: int,
    consecutiveLosses: int, asOf: Instant, enabled: bool)
  {
    predicate Valid() {
      && initialBalance > 0.0 && balance > 0.0 && equity > 0.0 && dayStartBalance > 0.0
      && openRisk >= 0.0 && openPositions >= 0 && tradesToday >= 0 && consecutiveLosses >= 0
    }
  }

  datatype MarketState = MarketState(
    asOf: Instant, connected: bool, platformReady: bool,
    spread: real, slippage: real, volatility: real,
    newsKnown: bool, newsCheckedAt: Instant, highImpactEvents: seq<Instant>)
  {
    predicate Valid() {
      spread >= 0.0 && slippage >= 0.0 && volatility >= 0.0
    }
  }

  datatype PropRules = PropRules(
    name: string, verified: bool, zone: string,
    dailyLoss: real, totalLoss: real, profitTarget: real)
  {
    predicate Valid() {
      IsFraction(dailyLoss) && IsFraction(totalLoss) && IsFraction(profitTarget)
    }
  }

  /** Why a scenario is refused, in the order in which the engines report. */
  datatype Stamp = SignalStamp | AccountStamp | MarketStamp | NewsStamp

  datatype Reason =
    | GlobalKillSwitch | AccountDisabled | Disconnected | PlatformNotReady
    | StaleOrFuture(stamp: Stamp)
    | DailyBaselineNotRolled | NewsUnknown | HighImpactNews
    | TradeRiskLimit | OpenRiskLimit | DailyLossLimit | TotalLossLimit
    | PositionLimit | DailyTradeLimit | LosingStreakLimit
    | SpreadLimit | SlippageLimit | VolatilityLimit
    | PropDailyLossLimit | PropTotalLossLimit | PropTargetReached

  datatype RiskDecision = RiskDecision(
    allowed: bool, reasons: seq<Reason>, riskAmount: real, checkedAt: Instant)
}
