/** What the combined gate guarantees: it reports every blocking fact exactly once,
    it is monotone as a list, its verdict on a position size is a threshold, it does
    not care for the direction of a trade, and an approval survives the worst case. */
module GateTheorems {
  import opened Contracts
  import opened RiskGate
  import opened Sequences

  // ---- completeness --------------------------------------------------------

  lemma EveryReasonIsExamined(r: Reason)
    ensures r in RISK_ORDER || r in PROP_ORDER
  {
    match r {
      case StaleOrFuture(s) =>
        match s {
          case SignalStamp => assert RISK_ORDER[4] == r;
          case AccountStamp => assert RISK_ORDER[5] == r;
          case MarketStamp => assert RISK_ORDER[6] == r;
          case NewsStamp => assert RISK_ORDER[7] == r;
        }
      case GlobalKillSwitch => assert RISK_ORDER[0] == r;
      case AccountDisabled => assert RISK_ORDER[1] == r;
      case Disconnected => assert RISK_ORDER[2] == r;
      case PlatformNotReady => assert RISK_ORDER[3] == r;
      case DailyBaselineNotRolled => assert RISK_ORDER[8] == r;
      case NewsUnknown => assert RISK_ORDER[9] == r;
      case HighImpactNews => assert RISK_ORDER[10] == r;
      case TradeRiskLimit => assert RISK_ORDER[11] == r;
      case OpenRiskLimit => assert RISK_ORDER[12] == r;
      case DailyLossLimit => assert RISK_ORDER[13] == r;
      case TotalLossLimit => assert RISK_ORDER[14] == r;
      case PositionLimit => assert RISK_ORDER[15] == r;
      case DailyTradeLimit => assert RISK_ORDER[16] == r;
      case LosingStreakLimit => assert RISK_ORDER[17] == r;
      case SpreadLimit => assert RISK_ORDER[18] == r;
      case SlippageLimit => assert RISK_ORDER[19] == r;
      case VolatilityLimit => assert RISK_ORDER[20] == r;
      case PropDailyLossLimit => assert PROP_ORDER[0] == r;
      case PropTotalLossLimit => assert PROP_ORDER[1] == r;
      case PropTargetReached => assert PROP_ORDER[2] == r;
    }
  }

  /** The stored reasons are exactly the facts that block; in particular the state of
      the switch and of the account can be read back from them. */
  lemma ReasonsAreExactlyTheBlockingFacts(env: Env, f: Facts)
    ensures forall r :: r in Combined(env, f).reasons <==> Blocks(env, f, r)
    ensures Combined(env, f).allowed <==> forall r :: !Blocks(env, f, r)
    ensures f.killed == (GlobalKillSwitch in Combined(env, f).reasons)
    ensures f.account.enabled == (AccountDisabled !in Combined(env, f).reasons)
  {
    SelectMembers(env, f, RISK_ORDER, |RISK_ORDER|);
    SelectMembers(env, f, PROP_ORDER, |PROP_ORDER|);
    assert RISK_ORDER[..|RISK_ORDER|] == RISK_ORDER && PROP_ORDER[..|PROP_ORDER|] == PROP_ORDER;
    var d := Combined(env, f);
    forall r
      ensures r in d.reasons <==> Blocks(env, f, r)
    {
      EveryReasonIsExamined(r);
    }
    assert d.reasons != [] ==> d.reasons[0] in d.reasons;
    assert Blocks(env, f, GlobalKillSwitch) == f.killed;
    assert Blocks(env, f, AccountDisabled) == !f.account.enabled;
  }

  // ---- monotonicity --------------------------------------------------------

  lemma {:induction false} SelectIsMonotone(env: Env, f: Facts, g: Facts, order: seq<Reason>, n: nat)
    requires n <= |order|
    requires forall r :: Blocks(env, f, r) ==> Blocks(env, g, r)
    ensures Subsequence(Select(env, f, order, n), Select(env, g, order, n))
  {
    if n > 0 {
      SelectIsMonotone(env, f, g, order, n - 1);
      var a, b := Select(env, f, order, n - 1), Select(env, g, order, n - 1);
      var r := order[n - 1];
      if Blocks(env, g, r) {
        assert (b + [r])[..|b|] == b;
        assert (a + [r])[..|a|] == a;
      }
    }
  }

  /** `f` is no worse than `g` in any single input; the clock, the stamps, the day,
      the zone and the initial balance are the same. */
  ghost predicate NoWorse(f: Facts, g: Facts) {
    && f.now == g.now && f.rules.zone == g.rules.zone
    && (forall s :: f.Stamped(s) == g.Stamped(s))
    && f.account.riskDay == g.account.riskDay && f.account.initialBalance == g.account.initialBalance
    && (f.killed ==> g.killed)
    && NoWorseAccount(f.account, g.account)
    && NoWorseMarket(f.market, g.market)
    && NoWorseLimits(f, g)
    && f.signal.RiskAmount() <= g.signal.RiskAmount()
  }

  ghost predicate NoWorseAccount(a: AccountState, b: AccountState) {
    && (b.enabled ==> a.enabled)
    && a.equity >= b.equity && a.openRisk <= b.openRisk
    && a.dayStartBalance <= b.dayStartBalance && a.balance <= b.balance
    && a.openPositions <= b.openPositions && a.tradesToday <= b.tradesToday
    && a.consecutiveLosses <= b.consecutiveLosses
  }

  ghost predicate NoWorseMarket(a: MarketState, b: MarketState) {
    && (b.connected ==> a.connected) && (b.platformReady ==> a.platformReady) && (b.newsKnown ==> a.newsKnown)
    && a.spread <= b.spread && a.slippage <= b.slippage && a.volatility <= b.volatility
    && (forall e :: e in a.highImpactEvents ==> e in b.highImpactEvents)
  }

  ghost predicate NoWorseLimits(f: Facts, g: Facts) {
    var p, q := f.policy, g.policy;
    && p.riskPerTrade >= q.riskPerTrade && p.maxOpenRisk >= q.maxOpenRisk
    && p.dailyLoss >= q.dailyLoss && p.totalLoss >= q.totalLoss
    && p.maxPositions >= q.maxPositions && p.maxTradesDaily >= q.maxTradesDaily
    && p.maxConsecutiveLosses >= q.maxConsecutiveLosses
    && p.maxSpread >= q.maxSpread && p.maxSlippage >= q.maxSlippage && p.maxVolatility >= q.maxVolatility
    && p.maxDataAgeSeconds >= q.maxDataAgeSeconds && p.newsWindowMinutes <= q.newsWindowMinutes
    && f.rules.dailyLoss >= g.rules.dailyLoss && f.rules.totalLoss >= g.rules.totalLoss
    && f.rules.profitTarget >= g.rules.profitTarget
  }

  predicate ValidFacts(f: Facts) {
    f.signal.Valid() && f.account.Valid() && f.market.Valid() && f.policy.Valid() && f.rules.Valid()
  }

  lemma ProductGrows(x: real, y: real, u: real, v: real)
    requires 0.0 <= x <= y && 0.0 <= u <= v
    ensures x * u <= y * v
  {
    assert x * u <= x * v;
    assert x * v <= y * v;
  }

  lemma DailyFloorFalls(a: AccountState, b: AccountState, x: real, y: real)
    requires a.initialBalance == b.initialBalance > 0.0 && a.dayStartBalance <= b.dayStartBalance && 0.0 <= y <= x
    ensures DailyFloor(a, x) <= DailyFloor(b, y)
  {
    ProductGrows(b.initialBalance, b.initialBalance, y, x);
  }

  lemma FloorFallsTargetRises(initialBalance: real, x: real, y: real)
    requires initialBalance > 0.0 && 0.0 <= y <= x
    ensures TotalFloor(initialBalance, x) <= TotalFloor(initialBalance, y)
    ensures initialBalance * (1.0 + y) <= initialBalance * (1.0 + x)
  {
    ProductGrows(initialBalance, initialBalance, y, x);
  }

  lemma MoneyBlockingIsMonotone(env: Env, f: Facts, g: Facts, r: Reason)
    requires ValidFacts(f) && ValidFacts(g) && NoWorse(f, g) && IsMoneyReason(r)
    ensures Blocks(env, f, r) ==> Blocks(env, g, r)
  {
    match r {
      case TradeRiskLimit =>
        ProductGrows(g.account.equity, f.account.equity, g.policy.riskPerTrade, f.policy.riskPerTrade);
      case OpenRiskLimit =>
        ProductGrows(g.account.equity, f.account.equity, g.policy.maxOpenRisk, f.policy.maxOpenRisk);
      case DailyLossLimit => DailyFloorFalls(f.account, g.account, f.policy.dailyLoss, g.policy.dailyLoss);
      case PropDailyLossLimit => DailyFloorFalls(f.account, g.account, f.rules.dailyLoss, g.rules.dailyLoss);
      case TotalLossLimit => FloorFallsTargetRises(f.account.initialBalance, f.policy.totalLoss, g.policy.totalLoss);
      case PropTotalLossLimit => FloorFallsTargetRises(f.account.initialBalance, f.rules.totalLoss, g.rules.totalLoss);
    }
  }

  lemma NewsIsMonotone(env: Env, f: Facts, g: Facts)
    requires NoWorse(f, g)
    ensures Blocks(env, f, HighImpactNews) ==> Blocks(env, g, HighImpactNews)
  {
    if Blocks(env, f, HighImpactNews) {
      var e :| e in f.market.highImpactEvents && Distance(e, f.now) <= f.policy.newsWindowMinutes * 60 * SECOND;
      assert e in g.market.highImpactEvents && Distance(e, g.now) <= g.policy.newsWindowMinutes * 60 * SECOND;
    }
  }

  lemma BlockingIsMonotone(env: Env, f: Facts, g: Facts, r: Reason)
    requires ValidFacts(f) && ValidFacts(g) && NoWorse(f, g)
    ensures Blocks(env, f, r) ==> Blocks(env, g, r)
  {
    if IsMoneyReason(r) {
      MoneyBlockingIsMonotone(env, f, g, r);
    } else {
      match r {
        case StaleOrFuture(s) => assert f.Stamped(s) == g.Stamped(s);
        case HighImpactNews => NewsIsMonotone(env, f, g);
        case PropTargetReached =>
          FloorFallsTargetRises(f.account.initialBalance, f.rules.profitTarget, g.rules.profitTarget);
        case _ =>
      }
    }
  }

  /** Bettering any inputs can only remove reasons: what remains is a subsequence of
      the list the worse scenario gets. */
  lemma GateIsMonotone(env: Env, f: Facts, g: Facts)
    requires ValidFacts(f) && ValidFacts(g) && NoWorse(f, g)
    ensures Subsequence(Combined(env, f).reasons, Combined(env, g).reasons)
    ensures Combined(env, g).allowed ==> Combined(env, f).allowed
  {
    forall r
      ensures Blocks(env, f, r) ==> Blocks(env, g, r)
    {
      BlockingIsMonotone(env, f, g, r);
    }
    SelectIsMonotone(env, f, g, RISK_ORDER, |RISK_ORDER|);
    SelectIsMonotone(env, f, g, PROP_ORDER, |PROP_ORDER|);
    SubsequenceOfConcat(RiskReasons(env, f), RiskReasons(env, g), PropReasons(env, f), PropReasons(env, g));
  }

  /** Where the policy's loss fractions are within the prop rules, no prop loss reason
      is ever reported without its policy counterpart. */
  lemma PropLossImpliesPolicyLoss(env: Env, f: Facts)
    requires ValidFacts(f)
    ensures f.policy.dailyLoss <= f.rules.dailyLoss && PropDailyLossLimit in Combined(env, f).reasons
            ==> DailyLossLimit in Combined(env, f).reasons
    ensures f.policy.totalLoss <= f.rules.totalLoss && PropTotalLossLimit in Combined(env, f).reasons
            ==> TotalLossLimit in Combined(env, f).reasons
  {
    ReasonsAreExactlyTheBlockingFacts(env, f);
    if f.policy.dailyLoss <= f.rules.dailyLoss {
      DailyFloorFalls(f.account, f.account, f.rules.dailyLoss, f.policy.dailyLoss);
      assert Blocks(env, f, PropDailyLossLimit) ==> Blocks(env, f, DailyLossLimit);
    }
    if f.policy.totalLoss <= f.rules.totalLoss {
      FloorFallsTargetRises(f.account.initialBalance, f.rules.totalLoss, f.policy.totalLoss);
      assert Blocks(env, f, PropTotalLossLimit) ==> Blocks(env, f, TotalLossLimit);
    }
  }

  // ---- sizing --------------------------------------------------------------

  function Sized(f: Facts, quantity: real): Facts {
    f.(signal := f.signal.(quantity := quantity))
  }

  predicate IsMoneyReason(r: Reason) {
    r in {TradeRiskLimit, OpenRiskLimit, DailyLossLimit, TotalLossLimit, PropDailyLossLimit, PropTotalLossLimit}
  }

  /** Nothing blocks apart, possibly, from the six tests on money. */
  ghost predicate OtherwiseClear(env: Env, f: Facts) {
    forall r | !IsMoneyReason(r) :: !Blocks(env, f, r)
  }

  /** The most that may be risked: within one trade, and within the open-risk budget. */
  function Room(f: Facts): real {
    var perTrade := f.account.equity * f.policy.riskPerTrade;
    var open := f.account.equity * f.policy.maxOpenRisk - f.account.openRisk;
    if perTrade <= open then perTrade else open
  }

  function Higher(x: real, y: real): real {
    if x < y then y else x
  }

  function HighestFloor(f: Facts): real {
    Higher(Higher(DailyFloor(f.account, f.policy.dailyLoss), DailyFloor(f.account, f.rules.dailyLoss)),
           Higher(TotalFloor(f.account.initialBalance, f.policy.totalLoss),
                  TotalFloor(f.account.initialBalance, f.rules.totalLoss)))
  }

  /** What separates the account, after its open risk, from the highest floor. */
  function Cushion(f: Facts): real {
    f.account.equity - f.account.openRisk - HighestFloor(f)
  }

  /** With everything but the quantity fixed, the verdict is one non-strict and one
      strict bound on the risk. */
  lemma SizingIsAThreshold(env: Env, f: Facts, quantity: real)
    ensures var risk := Sized(f, quantity).signal.RiskAmount();
            Combined(env, Sized(f, quantity)).allowed
            <==> OtherwiseClear(env, f) && risk <= Room(f) && risk < Cushion(f)
  {
    var g := Sized(f, quantity);
    ReasonsAreExactlyTheBlockingFacts(env, g);
    forall r | !IsMoneyReason(r)
      ensures Blocks(env, g, r) == Blocks(env, f, r)
    {
      SizeDoesNotMatterElsewhere(env, f, quantity, r);
    }
    assert (forall r | IsMoneyReason(r) :: !Blocks(env, g, r)) <==>
           g.signal.RiskAmount() <= Room(f) && g.signal.RiskAmount() < Cushion(f) by {
      MoneyBounds(env, f, quantity);
    }
  }

  lemma SizeDoesNotMatterElsewhere(env: Env, f: Facts, quantity: real, r: Reason)
    requires !IsMoneyReason(r)
    ensures Blocks(env, Sized(f, quantity), r) == Blocks(env, f, r)
  {
    match r {
      case StaleOrFuture(s) =>
        match s {
          case SignalStamp =>
          case AccountStamp =>
          case MarketStamp =>
          case NewsStamp =>
        }
      case _ =>
    }
  }

  lemma FloorsBound(env: Env, f: Facts, g: Facts)
    requires g == Sized(f, g.signal.quantity)
    ensures (!Blocks(env, g, DailyLossLimit) && !Blocks(env, g, TotalLossLimit)
             && !Blocks(env, g, PropDailyLossLimit) && !Blocks(env, g, PropTotalLossLimit))
            <==> g.signal.RiskAmount() < Cushion(f)
  {
    assert g.Projected() == f.account.equity - f.account.openRisk - g.signal.RiskAmount();
  }

  lemma RoomBounds(env: Env, f: Facts, g: Facts)
    requires g == Sized(f, g.signal.quantity)
    ensures !Blocks(env, g, TradeRiskLimit) && !Blocks(env, g, OpenRiskLimit) <==> g.signal.RiskAmount() <= Room(f)
  {
  }

  lemma MoneyBounds(env: Env, f: Facts, quantity: real)
    ensures var g := Sized(f, quantity);
            (forall r | IsMoneyReason(r) :: !Blocks(env, g, r)) <==>
            g.signal.RiskAmount() <= Room(f) && g.signal.RiskAmount() < Cushion(f)
  {
    var g := Sized(f, quantity);
    FloorsBound(env, f, g);
    RoomBounds(env, f, g);
    AllMoneyReasons(env, g);
  }

  lemma AllMoneyReasons(env: Env, g: Facts)
    ensures (forall r | IsMoneyReason(r) :: !Blocks(env, g, r)) <==>
            && !Blocks(env, g, TradeRiskLimit) && !Blocks(env, g, OpenRiskLimit)
            && !Blocks(env, g, DailyLossLimit) && !Blocks(env, g, TotalLossLimit)
            && !Blocks(env, g, PropDailyLossLimit) && !Blocks(env, g, PropTotalLossLimit)
  {
  }

  lemma RiskGrows(f: Facts, smaller: real, larger: real)
    requires f.signal.Valid() && 0.0 < smaller <= larger
    ensures Sized(f, smaller).signal.RiskAmount() <= Sized(f, larger).signal.RiskAmount()
  {
    var unit := Abs(f.signal.entry - f.signal.stopLoss);
    ProductGrows(smaller, larger, unit, unit);
    ProductGrows(unit * smaller, unit * larger, f.signal.valuePerUnit, f.signal.valuePerUnit);
  }

  /** Hence the quantities that pass are downward closed. */
  lemma SmallerSizesPass(env: Env, f: Facts, smaller: real, larger: real)
    requires f.signal.Valid() && 0.0 < smaller <= larger
    requires Combined(env, Sized(f, larger)).allowed
    ensures Combined(env, Sized(f, smaller)).allowed
  {
    RiskGrows(f, smaller, larger);
    SizingIsAThreshold(env, f, smaller);
    SizingIsAThreshold(env, f, larger);
  }

  // ---- direction -----------------------------------------------------------

  /** The same bracket on the other side of the entry. */
  function Reflected(s: Signal): Signal {
    s.(side := if s.side == Buy then Sell else Buy,
       stopLoss := 2.0 * s.entry - s.stopLoss,
       takeProfit := 2.0 * s.entry - s.takeProfit)
  }

  lemma DirectionDoesNotMatter(env: Env, f: Facts)
    requires f.signal.Valid()
    ensures Reflected(f.signal).Valid() <==>
            f.signal.stopLoss < 2.0 * f.signal.entry && f.signal.takeProfit < 2.0 * f.signal.entry
    ensures Combined(env, f.(signal := Reflected(f.signal))) == Combined(env, f)
    ensures Reflected(Reflected(f.signal)) == f.signal
  {
    var g := f.(signal := Reflected(f.signal));
    assert g.signal.RiskAmount() == f.signal.RiskAmount();
    forall r
      ensures Blocks(env, g, r) == Blocks(env, f, r)
    {
      match r {
        case StaleOrFuture(s) => assert g.Stamped(s) == f.Stamped(s);
        case _ =>
      }
    }
    SameBlocksSameSelection(env, f, g, RISK_ORDER, |RISK_ORDER|);
    SameBlocksSameSelection(env, f, g, PROP_ORDER, |PROP_ORDER|);
  }

  lemma {:induction false} SameBlocksSameSelection(env: Env, f: Facts, g: Facts, order: seq<Reason>, n: nat)
    requires n <= |order|
    requires forall r :: Blocks(env, g, r) == Blocks(env, f, r)
    ensures Select(env, g, order, n) == Select(env, f, order, n)
  {
    if n > 0 {
      SameBlocksSameSelection(env, f, g, order, n - 1);
    }
  }

  // ---- the worst case ------------------------------------------------------

  /** After an approval, losing anything up to the open risk and anything up to the new
      risk leaves the account solvent and above both daily and both total floors. */
  lemma ApprovalSurvivesTheWorstCase(env: Env, f: Facts, openLoss: real, newLoss: real)
    requires ValidFacts(f) && Combined(env, f).allowed
    requires openLoss <= f.account.openRisk && newLoss <= f.signal.RiskAmount()
    ensures var left := f.account.equity - openLoss - newLoss;
            && left > 0.0
            && left > DailyFloor(f.account, f.policy.dailyLoss) && left > DailyFloor(f.account, f.rules.dailyLoss)
            && left > TotalFloor(f.account.initialBalance, f.policy.totalLoss)
            && left > TotalFloor(f.account.initialBalance, f.rules.totalLoss)
  {
    ReasonsAreExactlyTheBlockingFacts(env, f);
    assert !Blocks(env, f, DailyLossLimit) && !Blocks(env, f, TotalLossLimit);
    assert !Blocks(env, f, PropDailyLossLimit) && !Blocks(env, f, PropTotalLossLimit);
    ProductGrows(0.0, f.account.initialBalance, 0.0, 1.0 - f.policy.totalLoss);
  }
}
