/**
 * What an admitted perp intent has passed, in plain numbers and names: the guard rules stated of the intent, the
 * policy and the snapshot, not of the rule functions.
 */
module PerpMeaning {
  import opened Options
  import opened Basics
  import opened Money
  import opened PolicyEngine
  import opened Liquidation
  import opened Perps

  // ---- markets -----------------------------------------------------------------------------------

  predicate Lists(markets: seq<string>, market: string) {
    exists i | 0 <= i < |markets| :: SameLetters(markets[i], market)
  }

  lemma ListsMeans(markets: seq<string>, market: string)
    ensures ContainsMarket(markets, Upper(market)) <==> Lists(markets, market)
  {
    forall i | 0 <= i < |markets| ensures Upper(markets[i]) == Upper(market) <==> SameLetters(markets[i], market) {
      UpperIsSameLetters(markets[i], market);
    }
  }

  /** Not on the deny list, and on the allow list where there is one. */
  predicate MarketOpen(policy: PerpsPolicy, market: string) {
    !Lists(policy.marketDenylist, market) && (policy.marketAllowlist.Some? ==> Lists(policy.marketAllowlist.value, market))
  }

  // ---- liquidation, oracle and funding -----------------------------------------------------------

  /** How far a liquidation price lies on the losing side of the entry; negative when it has been passed. */
  function Gap(side: Side, entry: real, price: real): real {
    if side == Long then entry - price else price - entry
  }

  /** An estimate that says something: a number on the losing side. */
  predicate Usable(side: Side, entry: real, estimate: Option<Number>) {
    estimate.Some? && estimate.value.Finite? && estimate.value.value >= 0.0 && Gap(side, entry, estimate.value.value) >= 0.0
  }

  predicate FarEnough(side: Side, entry: real, estimate: Option<Number>, floor: int)
    requires Usable(side, entry, estimate)
  {
    Gap(side, entry, estimate.value.value) * 10_000.0 >= floor as real * entry
  }

  lemma ScaledFloor(gap: real, base: real, n: int)
    requires base > 0.0
    ensures (gap / base * 10_000.0).Floor >= n <==> gap * 10_000.0 >= n as real * base
  {
    var q := gap / base;
    assert q * base == gap;
    FloorAtLeast(q * 10_000.0, n);
    CancelLeft(n as real, q * 10_000.0, base);
    assert base * (q * 10_000.0) == gap * 10_000.0;
    assert base * n as real == n as real * base;
  }

  lemma DistanceMeans(side: Side, entry: real, estimate: Option<Number>, floor: int)
    requires entry > 0.0
    ensures var d := if estimate.None? then None else LiquidationDistanceBps(side, Finite(entry), estimate.value);
      && (d.Some? <==> Usable(side, entry, estimate))
      && (d.Some? ==> (d.value >= floor <==> FarEnough(side, entry, estimate, floor)))
  {
    if Usable(side, entry, estimate) {
      ScaledFloor(Gap(side, entry, estimate.value.value), entry, floor);
    }
  }

  /** The model's price, as an equation: margin m is left at entry * (1 -+ 1/leverage) / (1 -+ m). */
  lemma ModelPriceMeans(p: PerpDetail)
    requires PositiveNumber(p.entryPrice) && PositiveNumber(p.leverage)
    requires p.maintenanceMarginRatio.Finite? && 0.0 <= p.maintenanceMarginRatio.value < 1.0
    ensures var entry, lev, m := p.entryPrice.value, p.leverage.value, p.maintenanceMarginRatio.value;
      && (ModelPriceOf(p).None? ==> p.side == Long && lev < 1.0)
      && (ModelPriceOf(p).Some? && p.side == Long ==> ModelPriceOf(p).value * (1.0 - m) * lev == entry * (lev - 1.0))
      && (ModelPriceOf(p).Some? && p.side == Short ==> ModelPriceOf(p).value * (1.0 + m) * lev == entry * (lev + 1.0))
  {
    var entry, lev, m := p.entryPrice.value, p.leverage.value, p.maintenanceMarginRatio.value;
    var x := 1.0 / lev;
    assert x * lev == 1.0;
    if p.side == Short || lev >= 1.0 {
      ModelPriceExists(p.side, entry, lev, m);
    }
    if ModelPriceOf(p).Some? {
      if p.side == Long {
        QuotientTimes(entry * (1.0 - x), 1.0 - m, lev, ModelPriceOf(p).value);
        Expands(entry, 1.0, -x, lev);
        assert entry * (1.0 - x) * lev == entry * lev - entry;
      } else {
        QuotientTimes(entry * (1.0 + x), 1.0 + m, lev, ModelPriceOf(p).value);
        Expands(entry, 1.0, x, lev);
        assert entry * (1.0 + x) * lev == entry * lev + entry;
      }
    }
  }

  lemma QuotientTimes(a: real, b: real, k: real, q: real)
    requires b > 0.0 && q == a / b
    ensures q * b * k == a * k
  {
    assert q * b == a;
  }

  lemma Expands(e: real, a: real, b: real, k: real)
    ensures e * (a + b) * k == e * (a * k) + e * (b * k)
  {
    assert e * (a + b) * k == e * ((a + b) * k);
    assert (a + b) * k == a * k + b * k;
  }

  /** Mark and oracle are within a number of whole basis points of the oracle's price. */
  predicate Close(mark: real, oracle: real, bps: int) {
    (if mark < oracle then oracle - mark else mark - oracle) * 10_000.0 < (bps + 1) as real * oracle
  }

  lemma DivergenceMeans(mark: real, oracle: real, bps: int)
    requires mark > 0.0 && oracle > 0.0
    ensures var div := OracleDivergenceBps(Finite(mark), Finite(oracle)); div.Some? && (div.value <= bps <==> Close(mark, oracle, bps))
  {
    ScaledFloor(if mark < oracle then oracle - mark else mark - oracle, oracle, bps + 1);
  }

  /** The rate is known, sane, and not too adverse: longs pay a positive rate, shorts a negative one. */
  predicate FundingFine(policy: PerpsPolicy, side: Side, rate: Option<Number>) {
    && rate.Some? && rate.value.Finite?
    && -policy.maxFundingRateBpsPerHour <= rate.value.value <= policy.maxFundingRateBpsPerHour
    && (side == Long ==> rate.value.value <= policy.maxAdverseFundingBpsPerHour)
    && (side == Short ==> -rate.value.value <= policy.maxAdverseFundingBpsPerHour)
  }

  /** Some estimate says something, and every one that does is far enough away. */
  predicate LiquidationFine(policy: PerpsPolicy, p: PerpDetail)
    requires p.entryPrice.Finite?
  {
    var model := if ModelPriceOf(p).Some? then Some(Finite(ModelPriceOf(p).value)) else None;
    var entry, floor := p.entryPrice.value, policy.minLiquidationDistanceBps;
    && (Usable(p.side, entry, p.venueLiquidationPrice) || Usable(p.side, entry, model))
    && (Usable(p.side, entry, p.venueLiquidationPrice) ==> FarEnough(p.side, entry, p.venueLiquidationPrice, floor))
    && (Usable(p.side, entry, model) ==> FarEnough(p.side, entry, model, floor))
  }

  lemma LiquidationMeans(i: PerpIntent, ctx: GuardContext)
    requires IsOpening(i.kind) && PositiveNumber(i.perp.entryPrice)
    ensures CheckLiquidation(i, ctx).None? <==> LiquidationFine(ctx.policy, i.perp)
  {
    var p, floor := i.perp, ctx.policy.minLiquidationDistanceBps;
    var model := if ModelPriceOf(p).Some? then Some(Finite(ModelPriceOf(p).value)) else None;
    DistanceMeans(p.side, p.entryPrice.value, p.venueLiquidationPrice, floor);
    DistanceMeans(p.side, p.entryPrice.value, model, floor);
  }

  // ---- the guards, whole -------------------------------------------------------------------------

  /** What every intent must pass. */
  predicate Standing(i: PerpIntent, ctx: GuardContext) {
    && (ctx.dryRun || ctx.executionEnabled) && ctx.accountInitialized
    && MarketOpen(ctx.policy, i.perp.market)
    && (i.perp.marketStatus == ActiveMarket || (i.perp.marketStatus == ReduceOnlyMarket && IsReducing(i.kind)))
    && i.perp.collateralMint in ctx.policy.allowedCollateralMints
    && i.perp.collateralMint in {WSOL_MINT, USDC_MINT, USDT_MINT}
    && i.perp.slippageBps <= ctx.policy.maxSlippageBps
    && (i.perp.collateralAmount != 0 ==> i.perp.collateralAmount <= CapsOf(i, ctx.policy).maxCollateralPerPosition)
  }

  function CapsOf(i: PerpIntent, policy: PerpsPolicy): PerpsCaps {
    if i.perp.collateralMint == WSOL_MINT then policy.capsSol else policy.capsUsdc
  }

  function HeldNotional(i: PerpIntent, e: Exposure): int {
    if i.perp.collateralMint == WSOL_MINT then e.notionalSol else e.notionalUsdc
  }

  /** What a reduce or a close must pass: a position the other way, at least as large as the order. */
  predicate ReductionFine(i: PerpIntent, ctx: GuardContext) {
    && ctx.position.Some? && SameLetters(ctx.position.value.symbol, i.perp.market)
    && ctx.position.value.side != i.perp.side && i.perp.expectedBaseAmount <= ctx.position.value.baseAmount
  }

  /** What an open or an increase must pass. */
  predicate EntryFine(i: PerpIntent, ctx: GuardContext)
    requires ShapeOk(i)
  {
    && !ctx.killSwitch && ctx.policy.perpsEnabled && !ctx.policy.windDownOnly
    && (i.kind.PerpIncrease? ==> ctx.position.Some? && ctx.position.value.side == i.perp.side)
    && i.perp.leverage.value <= ctx.policy.maxLeverage
    && NotionalFromCollateral(i.perp.collateralAmount, i.perp.leverage).Some?
    && AdmittedNotional(i) <= CapsOf(i, ctx.policy).maxNotionalPerPosition
    && !ctx.exposure.stale
    && HeldNotional(i, ctx.exposure) + AdmittedNotional(i) <= CapsOf(i, ctx.policy).maxPortfolioNotional
    && (i.kind.PerpOpen? && ctx.position.None? ==> ctx.exposure.openPositions < ctx.policy.maxOpenPositions)
    && LiquidationFine(ctx.policy, i.perp)
    && Close(i.perp.markPrice.value, i.perp.oraclePrice.value, ctx.policy.maxOracleDivergenceBps)
    && FundingFine(ctx.policy, i.perp.side, i.perp.fundingBpsPerHour)
  }

  lemma {:induction false} NoViolationMeans(rules: seq<Rule>, i: PerpIntent, ctx: GuardContext)
    ensures Violations(rules, i, ctx) == [] <==> forall rule | rule in rules :: Check(rule, i, ctx).None?
  {
    if rules != [] {
      var front, last := rules[..|rules| - 1], rules[|rules| - 1];
      NoViolationMeans(front, i, ctx);
      assert rules == front + [last];
    }
  }

  lemma EveryRuleListed()
    ensures forall rule: Rule :: rule in RULES
  {
    forall rule: Rule ensures rule in RULES {
      assert rule == RULES[0] || rule == RULES[1] || rule == RULES[2] || rule == RULES[3] || rule == RULES[4]
        || rule == RULES[5] || rule == RULES[6] || rule == RULES[7] || rule == RULES[8] || rule == RULES[9]
        || rule == RULES[10] || rule == RULES[11] || rule == RULES[12] || rule == RULES[13] || rule == RULES[14]
        || rule == RULES[15] || rule == RULES[16];
    }
  }

  lemma AdmittedMeansNoRule(i: PerpIntent, ctx: GuardContext)
    ensures Admitted(i, ctx) <==> ShapeOk(i) && forall rule :: Check(rule, i, ctx).None?
  {
    NoViolationMeans(RULES, i, ctx);
    EveryRuleListed();
  }

  /** The rules every intent answers to, besides the arms. */
  predicate PassesStanding(i: PerpIntent, ctx: GuardContext) {
    && Check(AccountReady, i, ctx).None? && Check(MarketAllowed, i, ctx).None? && Check(MarketTradeable, i, ctx).None?
    && Check(CollateralAllowed, i, ctx).None? && Check(CollateralCappable, i, ctx).None?
    && Check(SlippageWithinClamp, i, ctx).None? && Check(CollateralWithinCap, i, ctx).None?
  }

  /** The rules only an open or an increase answers to. */
  predicate PassesEntry(i: PerpIntent, ctx: GuardContext) {
    && Check(IncreaseMatchesPosition, i, ctx).None? && Check(LeverageWithinCap, i, ctx).None?
    && Check(NotionalWithinCap, i, ctx).None? && Check(PortfolioWithinCap, i, ctx).None?
    && Check(PositionCountWithinCap, i, ctx).None? && Check(LiquidationDistanceOk, i, ctx).None?
    && Check(OracleAgreesWithMark, i, ctx).None? && Check(FundingSane, i, ctx).None?
  }

  lemma MarketMeans(i: PerpIntent, ctx: GuardContext)
    ensures Check(MarketAllowed, i, ctx).None? <==> MarketOpen(ctx.policy, i.perp.market)
  {
    ListsMeans(ctx.policy.marketDenylist, i.perp.market);
    if ctx.policy.marketAllowlist.Some? {
      ListsMeans(ctx.policy.marketAllowlist.value, i.perp.market);
    }
  }

  lemma StandingMeans(i: PerpIntent, ctx: GuardContext)
    requires ShapeOk(i)
    ensures PassesStanding(i, ctx) && (ctx.dryRun || ctx.executionEnabled) <==> Standing(i, ctx)
  {
    BucketMeans(i.perp.collateralMint);
    MarketMeans(i, ctx);
  }

  lemma ReductionMeans(i: PerpIntent, ctx: GuardContext)
    ensures Check(ReduceIsAReduction, i, ctx).None? <==> (IsReducing(i.kind) ==> ReductionFine(i, ctx))
  {
    if ctx.position.Some? {
      UpperIsSameLetters(ctx.position.value.symbol, i.perp.market);
    }
  }

  lemma CapRulesMean(i: PerpIntent, ctx: GuardContext)
    requires ShapeOk(i) && IsOpening(i.kind) && BucketOf(i).Some?
    ensures Check(NotionalWithinCap, i, ctx).None? <==>
      && NotionalFromCollateral(i.perp.collateralAmount, i.perp.leverage).Some?
      && AdmittedNotional(i) <= CapsOf(i, ctx.policy).maxNotionalPerPosition
    ensures Check(PortfolioWithinCap, i, ctx).None? <==>
      && !ctx.exposure.stale
      && HeldNotional(i, ctx.exposure) + AdmittedNotional(i) <= CapsOf(i, ctx.policy).maxPortfolioNotional
  {
    BucketMeans(i.perp.collateralMint);
  }

  lemma EntryMeans(i: PerpIntent, ctx: GuardContext)
    requires ShapeOk(i) && IsOpening(i.kind) && BucketOf(i).Some?
    ensures PassesEntry(i, ctx) && !ctx.killSwitch && ctx.policy.perpsEnabled && !ctx.policy.windDownOnly <==> EntryFine(i, ctx)
  {
    CapRulesMean(i, ctx);
    LiquidationMeans(i, ctx);
    DivergenceMeans(i.perp.markPrice.value, i.perp.oraclePrice.value, ctx.policy.maxOracleDivergenceBps);
    assert Check(FundingSane, i, ctx).None? <==> FundingFine(ctx.policy, i.perp.side, i.perp.fundingBpsPerHour);
  }

  lemma NotEntering(i: PerpIntent, ctx: GuardContext)
    requires !IsOpening(i.kind)
    ensures PassesEntry(i, ctx)
  {
  }

  lemma ArmsMean(i: PerpIntent, ctx: GuardContext)
    ensures Check(ArmState, i, ctx).None? <==>
      && (ctx.dryRun || ctx.executionEnabled)
      && (IsOpening(i.kind) ==> !ctx.killSwitch && ctx.policy.perpsEnabled && !ctx.policy.windDownOnly)
  {
  }

  /** Every rule is in one of the groups. */
  lemma AllRules(i: PerpIntent, ctx: GuardContext)
    ensures (forall rule :: Check(rule, i, ctx).None?) <==>
      && Check(ArmState, i, ctx).None? && Check(ReduceIsAReduction, i, ctx).None?
      && PassesStanding(i, ctx) && PassesEntry(i, ctx)
  {
  }

  /**
   * The guards, whole. An intent is admitted if and only if it is well formed; the execution is armed or only
   * rehearsed, the account exists, the market is listed and trades, the collateral is allowed, has a bucket and is
   * within its cap, the slippage within its clamp; a reduction reduces a position that is there; and an entry has
   * its arms, faces its position's way, and keeps leverage, notional, portfolio, slots, liquidation, oracle and
   * funding within their bounds.
   */
  lemma AdmittedIff(i: PerpIntent, ctx: GuardContext)
    ensures Admitted(i, ctx) <==>
      && ShapeOk(i) && Standing(i, ctx)
      && (IsReducing(i.kind) ==> ReductionFine(i, ctx)) && (IsOpening(i.kind) ==> EntryFine(i, ctx))
  {
    AdmittedMeansNoRule(i, ctx);
    if ShapeOk(i) {
      AllRules(i, ctx);
      ArmsMean(i, ctx);
      StandingMeans(i, ctx);
      ReductionMeans(i, ctx);
      BucketMeans(i.perp.collateralMint);
      if !IsOpening(i.kind) {
        NotEntering(i, ctx);
      } else if BucketOf(i).Some? {
        EntryMeans(i, ctx);
      }
    }
  }

  /** The notional that margin and leverage imply: the margin times the leverage, rounded to basis points, in whole units. */
  lemma ImpliedNotionalMeans(collateral: int, leverage: real) returns (bps: int)
    requires leverage > 0.0 && NotionalFromCollateral(collateral, Finite(leverage)).Some?
    ensures var n := NotionalFromCollateral(collateral, Finite(leverage)).value;
      && bps > 0 && bps as real - 0.5 <= leverage * 10_000.0 < bps as real + 0.5
      && n * 10_000 <= collateral * bps < (n + 1) * 10_000
  {
    bps := LeverageToBps(Finite(leverage)).value;
  }
}
