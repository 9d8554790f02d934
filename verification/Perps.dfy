/**
 * Perpetuals: exposure totals (src/perps/exposure.ts), input-leg notional (src/perps/policy.ts), the
 * structural check of an intent (src/perps/intent.ts) and the guard rules (src/perps/guards.ts).
 */
module Perps {
  import opened Options
  import opened Basics
  import opened Money
  import opened PolicyEngine
  import opened Liquidation

  datatype MarketStatus = ActiveMarket | ReduceOnlyMarket | HaltedMarket | UnknownMarket

  datatype PerpDetail = PerpDetail(
    venue: string,
    market: string,
    side: Side,
    limitOrder: bool,
    limitPrice: Option<Number>,
    reduceOnly: bool,
    leverage: Number,
    slippageBps: int,
    expectedBaseAmount: int,
    minBaseAmount: int,
    collateralMint: string,
    collateralAmount: int,
    notionalMint: string,
    notionalAmount: int,
    entryPrice: Number,
    markPrice: Number,
    oraclePrice: Number,
    maintenanceMarginRatio: Number,
    marketStatus: MarketStatus,
    venueLiquidationPrice: Option<Number>,
    fundingBpsPerHour: Option<Number>)

  datatype PerpIntent = PerpIntent(
    kind: IntentKind,
    source: string,
    unsignedTx: string,
    recentBlockhash: string,
    lastValidBlockHeight: int,
    priorityFeeLamports: Number,
    inputMint: string,
    inputAmount: int,
    perp: PerpDetail)

  datatype PerpPosition = PerpPosition(
    symbol: string,
    side: Side,
    baseAmount: nat,
    notionalMint: string,
    notionalAmount: int,
    collateralMint: string,
    collateralAmount: int)

  datatype PerpsCaps = PerpsCaps(
    maxCollateralPerPosition: int,
    maxNotionalPerPosition: int,
    maxPortfolioNotional: int)

  datatype PerpsPolicy = PerpsPolicy(
    perpsEnabled: bool,
    windDownOnly: bool,
    maxLeverage: real,
    minLiquidationDistanceBps: int,
    maxFundingRateBpsPerHour: real,
    maxAdverseFundingBpsPerHour: real,
    maxSlippageBps: int,
    maxOracleDivergenceBps: int,
    liquidationToleranceBps: int,
    maxOpenPositions: int,
    capsSol: PerpsCaps,
    capsUsdc: PerpsCaps,
    marketAllowlist: Option<seq<string>>,
    marketDenylist: seq<string>,
    allowedCollateralMints: seq<string>)

  datatype Exposure = Exposure(
    openPositions: nat,
    notionalSol: int, notionalUsdc: int,
    collateralSol: int, collateralUsdc: int,
    stale: bool,
    unbucketed: nat)

  datatype GuardContext = GuardContext(
    policy: PerpsPolicy,
    killSwitch: bool,
    executionEnabled: bool,
    exposure: Exposure,
    position: Option<PerpPosition>,
    accountInitialized: bool,
    dryRun: bool)

  predicate IsReducing(kind: IntentKind) { kind.PerpReduce? || kind.PerpClose? }
  predicate IsOpening(kind: IntentKind) { kind.PerpOpen? || kind.PerpIncrease? }

  predicate ContainsMarket(markets: seq<string>, market: string) {
    exists i | 0 <= i < |markets| :: Upper(markets[i]) == market
  }

  // ---- exposure ----------------------------------------------------------------------------------

  predicate Bucketed(p: PerpPosition) {
    QuoteBucketFor(p.notionalMint).Some? && QuoteBucketFor(p.collateralMint).Some?
  }

  function NotionalIn(p: PerpPosition, bucket: QuoteBucket): nat {
    if Bucketed(p) && QuoteBucketFor(p.notionalMint) == Some(bucket) then Abs(p.notionalAmount) else 0
  }

  function CollateralIn(p: PerpPosition, bucket: QuoteBucket): nat {
    if Bucketed(p) && QuoteBucketFor(p.collateralMint) == Some(bucket) then Abs(p.collateralAmount) else 0
  }

  function TotalNotional(ps: seq<PerpPosition>, bucket: QuoteBucket): nat {
    if ps == [] then 0 else TotalNotional(ps[..|ps| - 1], bucket) + NotionalIn(ps[|ps| - 1], bucket)
  }

  function TotalCollateral(ps: seq<PerpPosition>, bucket: QuoteBucket): nat {
    if ps == [] then 0 else TotalCollateral(ps[..|ps| - 1], bucket) + CollateralIn(ps[|ps| - 1], bucket)
  }

  function Unbucketed(ps: seq<PerpPosition>): nat {
    if ps == [] then 0 else Unbucketed(ps[..|ps| - 1]) + if Bucketed(ps[|ps| - 1]) then 0 else 1
  }

  function ExposureOf(ps: seq<PerpPosition>): Exposure {
    Exposure(|ps|, TotalNotional(ps, Sol), TotalNotional(ps, Usdc), TotalCollateral(ps, Sol),
             TotalCollateral(ps, Usdc), Unbucketed(ps) > 0, Unbucketed(ps))
  }

  /** Absolute per-bucket totals: a short's exposure is exposure too. */
  method ExposureFrom(positions: seq<PerpPosition>) returns (e: Exposure)
    ensures e == ExposureOf(positions)
    ensures e.stale <==> exists i | 0 <= i < |positions| :: !Bucketed(positions[i])
  {
    var notionalSol, notionalUsdc, collateralSol, collateralUsdc, unbucketed := 0, 0, 0, 0, 0;
    for i := 0 to |positions|
      invariant notionalSol == TotalNotional(positions[..i], Sol) && notionalUsdc == TotalNotional(positions[..i], Usdc)
      invariant collateralSol == TotalCollateral(positions[..i], Sol)
      invariant collateralUsdc == TotalCollateral(positions[..i], Usdc)
      invariant unbucketed == Unbucketed(positions[..i])
      invariant unbucketed > 0 <==> exists j | 0 <= j < i :: !Bucketed(positions[j])
    {
      assert positions[..i + 1][..i] == positions[..i];
      var p := positions[i];
      var bucket := QuoteBucketFor(p.notionalMint);
      var collBucket := QuoteBucketFor(p.collateralMint);
      if bucket.None? || collBucket.None? {
        unbucketed := unbucketed + 1;
      } else {
        if bucket.value == Sol {
          notionalSol := notionalSol + Abs(p.notionalAmount);
        } else {
          notionalUsdc := notionalUsdc + Abs(p.notionalAmount);
        }
        if collBucket.value == Sol {
          collateralSol := collateralSol + Abs(p.collateralAmount);
        } else {
          collateralUsdc := collateralUsdc + Abs(p.collateralAmount);
        }
      }
    }
    assert positions[..|positions|] == positions;
    e := Exposure(|positions|, notionalSol, notionalUsdc, collateralSol, collateralUsdc, unbucketed > 0, unbucketed);
  }

  function NotionalByBucket(e: Exposure, bucket: QuoteBucket): int {
    if bucket == Sol then e.notionalSol else e.notionalUsdc
  }

  // ---- input-leg notional ------------------------------------------------------------------------

  function CapsForBucket(policy: PerpsPolicy, bucket: QuoteBucket): PerpsCaps {
    if bucket == Sol then policy.capsSol else policy.capsUsdc
  }

  /** Leverage in whole basis points, rounded half up. */
  function LeverageToBps(leverage: Number): Option<int> {
    if leverage.NotFinite? || leverage.value <= 0.0 then None
    else
      var bps := (leverage.value * 10_000.0 + 0.5).Floor;
      if bps > 0 then Some(bps) else None
  }

  function NotionalFromCollateral(collateral: int, leverage: Number): Option<int> {
    var bps := LeverageToBps(leverage);
    if bps.None? || collateral < 0 then None else Some(collateral * bps.value / 10_000)
  }

  // ---- structure of an intent --------------------------------------------------------------------

  predicate PositiveNumber(x: Number) { IsUsablePrice(x) }

  predicate ShapeOk(i: PerpIntent) {
    && IsPerpKind(i.kind)
    && i.source != "" && i.unsignedTx != "" && i.recentBlockhash != "" && i.lastValidBlockHeight > 0
    && i.priorityFeeLamports.Finite? && i.priorityFeeLamports.value >= 0.0
    && i.inputMint != "" && i.inputAmount >= 0
    && i.perp.venue != "" && i.perp.market != ""
    && PositiveNumber(i.perp.leverage) && i.perp.slippageBps >= 0
    && 0 <= i.perp.minBaseAmount <= i.perp.expectedBaseAmount && i.perp.expectedBaseAmount > 0
    && i.perp.collateralMint == i.inputMint && i.perp.collateralAmount == i.inputAmount
    && i.perp.notionalAmount >= 0 && i.perp.notionalMint == i.inputMint
    && PositiveNumber(i.perp.entryPrice) && PositiveNumber(i.perp.markPrice) && PositiveNumber(i.perp.oraclePrice)
    && i.perp.maintenanceMarginRatio.Finite? && 0.0 <= i.perp.maintenanceMarginRatio.value < 1.0
    && (i.perp.limitOrder ==> i.perp.limitPrice.Some? && PositiveNumber(i.perp.limitPrice.value))
    && i.perp.reduceOnly == IsReducing(i.kind)
  }

  // ---- the rules ---------------------------------------------------------------------------------

  datatype Code =
    | PerpsDisabled | PerpKillSwitch | WindDownOnly | InvalidPerpIntent | MarketDenied | MarketNotTradeable
    | CollateralMintDenied | CollateralNotCappable | LeverageExceeded | CollateralCapExceeded
    | NotionalCapExceeded | PortfolioExposureExceeded | PositionCountExceeded | ExposureUnknown
    | LiquidationTooClose | LiquidationUnknown | FundingUnsane | FundingAdverse | FundingUnknown
    | OracleDivergence | PerpSlippageExceeded | NoPosition | PositionSideMismatch | SizeExceedsPosition
    | AccountNotInitialized

  datatype Rule =
    | ArmState | AccountReady | MarketAllowed | MarketTradeable | CollateralAllowed | CollateralCappable
    | SlippageWithinClamp | ReduceIsAReduction | IncreaseMatchesPosition | LeverageWithinCap
    | CollateralWithinCap | NotionalWithinCap | PortfolioWithinCap | PositionCountWithinCap
    | LiquidationDistanceOk | OracleAgreesWithMark | FundingSane

  /** The rule list, in reporting and throw order. */
  const RULES: seq<Rule> := [
    ArmState, AccountReady, MarketAllowed, MarketTradeable, CollateralAllowed, CollateralCappable,
    SlippageWithinClamp, ReduceIsAReduction, IncreaseMatchesPosition, LeverageWithinCap,
    CollateralWithinCap, NotionalWithinCap, PortfolioWithinCap, PositionCountWithinCap,
    LiquidationDistanceOk, OracleAgreesWithMark, FundingSane]

  function BucketOf(i: PerpIntent): Option<QuoteBucket> {
    QuoteBucketFor(i.perp.collateralMint)
  }

  function CheckArmState(i: PerpIntent, ctx: GuardContext): Option<Code> {
    if ctx.killSwitch && IsOpening(i.kind) then Some(PerpKillSwitch)
    else if !ctx.dryRun && !ctx.executionEnabled then Some(PerpsDisabled)
    else if !ctx.policy.perpsEnabled && IsOpening(i.kind) then Some(PerpsDisabled)
    else if ctx.policy.windDownOnly && IsOpening(i.kind) then Some(WindDownOnly)
    else None
  }

  function CheckMarket(i: PerpIntent, ctx: GuardContext): Option<Code> {
    var market := Upper(i.perp.market);
    if ContainsMarket(ctx.policy.marketDenylist, market) then Some(MarketDenied)
    else if ctx.policy.marketAllowlist.Some? && !ContainsMarket(ctx.policy.marketAllowlist.value, market)
    then Some(MarketDenied)
    else None
  }

  function CheckReduction(i: PerpIntent, ctx: GuardContext): Option<Code> {
    if !IsReducing(i.kind) then None
    else if ctx.position.None? then Some(NoPosition)
    else if Upper(ctx.position.value.symbol) != Upper(i.perp.market) then Some(PositionSideMismatch)
    else if ctx.position.value.side == i.perp.side then Some(PositionSideMismatch)
    else if i.perp.expectedBaseAmount > ctx.position.value.baseAmount then Some(SizeExceedsPosition)
    else None
  }

  function CheckIncrease(i: PerpIntent, ctx: GuardContext): Option<Code> {
    if !i.kind.PerpIncrease? then None
    else if ctx.position.None? then Some(NoPosition)
    else if ctx.position.value.side != i.perp.side then Some(PositionSideMismatch)
    else None
  }

  function CheckCollateralCap(i: PerpIntent, ctx: GuardContext): Option<Code> {
    var bucket := BucketOf(i);
    if bucket.None? || i.perp.collateralAmount == 0 then None
    else if i.perp.collateralAmount > CapsForBucket(ctx.policy, bucket.value).maxCollateralPerPosition
    then Some(CollateralCapExceeded)
    else None
  }

  /** The larger of what the venue claims and what the margin and leverage imply. */
  function AdmittedNotional(i: PerpIntent): int {
    var derived := NotionalFromCollateral(i.perp.collateralAmount, i.perp.leverage);
    Max(i.perp.notionalAmount, if derived.Some? then derived.value else i.perp.notionalAmount)
  }

  function CheckNotionalCap(i: PerpIntent, ctx: GuardContext): Option<Code> {
    var bucket := BucketOf(i);
    if !IsOpening(i.kind) || bucket.None? then None
    else
      if NotionalFromCollateral(i.perp.collateralAmount, i.perp.leverage).None? then Some(NotionalCapExceeded)
      else if AdmittedNotional(i) > CapsForBucket(ctx.policy, bucket.value).maxNotionalPerPosition
      then Some(NotionalCapExceeded)
      else None
  }

  function CheckPortfolioCap(i: PerpIntent, ctx: GuardContext): Option<Code> {
    var bucket := BucketOf(i);
    if !IsOpening(i.kind) || bucket.None? then None
    else if ctx.exposure.stale then Some(ExposureUnknown)
    else
      if NotionalByBucket(ctx.exposure, bucket.value) + AdmittedNotional(i) > CapsForBucket(ctx.policy, bucket.value).maxPortfolioNotional
      then Some(PortfolioExposureExceeded)
      else None
  }

  function CheckPositionCount(i: PerpIntent, ctx: GuardContext): Option<Code> {
    if !i.kind.PerpOpen? then None
    else if ctx.exposure.stale then Some(ExposureUnknown)
    else if ctx.position.Some? then None
    else if ctx.exposure.openPositions >= ctx.policy.maxOpenPositions then Some(PositionCountExceeded)
    else None
  }

  function ModelPriceOf(p: PerpDetail): Option<real> {
    ModelLiquidationPrice(p.side, p.entryPrice, p.leverage, p.maintenanceMarginRatio)
  }

  function CheckLiquidation(i: PerpIntent, ctx: GuardContext): Option<Code> {
    if !IsOpening(i.kind) then None
    else
      var p := i.perp;
      var r := ReconcileLiquidation(p.side, p.entryPrice, p.venueLiquidationPrice, ModelPriceOf(p),
                                    ctx.policy.liquidationToleranceBps);
      if r.Unusable? then Some(LiquidationUnknown)
      else if r.distanceBps < ctx.policy.minLiquidationDistanceBps then Some(LiquidationTooClose)
      else None
  }

  function CheckOracle(i: PerpIntent, ctx: GuardContext): Option<Code> {
    if !IsOpening(i.kind) then None
    else
      var div := OracleDivergenceBps(i.perp.markPrice, i.perp.oraclePrice);
      if div.None? || div.value > ctx.policy.maxOracleDivergenceBps then Some(OracleDivergence) else None
  }

  /** Positive funding is paid by longs. */
  function CheckFunding(i: PerpIntent, ctx: GuardContext): Option<Code> {
    if !IsOpening(i.kind) then None
    else if i.perp.fundingBpsPerHour.None? || i.perp.fundingBpsPerHour.value.NotFinite? then Some(FundingUnknown)
    else
      var f := i.perp.fundingBpsPerHour.value.value;
      if (if f < 0.0 then -f else f) > ctx.policy.maxFundingRateBpsPerHour then Some(FundingUnsane)
      else if (if i.perp.side == Long then f else -f) > ctx.policy.maxAdverseFundingBpsPerHour then Some(FundingAdverse)
      else None
  }

  function Check(rule: Rule, i: PerpIntent, ctx: GuardContext): Option<Code> {
    match rule
    case ArmState => CheckArmState(i, ctx)
    case AccountReady => if ctx.accountInitialized then None else Some(AccountNotInitialized)
    case MarketAllowed => CheckMarket(i, ctx)
    case MarketTradeable =>
      if i.perp.marketStatus.ActiveMarket? || (i.perp.marketStatus.ReduceOnlyMarket? && IsReducing(i.kind))
      then None else Some(MarketNotTradeable)
    case CollateralAllowed =>
      if i.perp.collateralMint in ctx.policy.allowedCollateralMints then None else Some(CollateralMintDenied)
    case CollateralCappable => if BucketOf(i).Some? then None else Some(CollateralNotCappable)
    case SlippageWithinClamp =>
      if i.perp.slippageBps <= ctx.policy.maxSlippageBps then None else Some(PerpSlippageExceeded)
    case ReduceIsAReduction => CheckReduction(i, ctx)
    case IncreaseMatchesPosition => CheckIncrease(i, ctx)
    case LeverageWithinCap =>
      if IsOpening(i.kind) && i.perp.leverage.Finite? && i.perp.leverage.value > ctx.policy.maxLeverage
      then Some(LeverageExceeded) else None
    case CollateralWithinCap => CheckCollateralCap(i, ctx)
    case NotionalWithinCap => CheckNotionalCap(i, ctx)
    case PortfolioWithinCap => CheckPortfolioCap(i, ctx)
    case PositionCountWithinCap => CheckPositionCount(i, ctx)
    case LiquidationDistanceOk => CheckLiquidation(i, ctx)
    case OracleAgreesWithMark => CheckOracle(i, ctx)
    case FundingSane => CheckFunding(i, ctx)
  }

  function Violations(rules: seq<Rule>, i: PerpIntent, ctx: GuardContext): seq<Code> {
    if rules == [] then []
    else
      var rest := Violations(rules[..|rules| - 1], i, ctx);
      var found := Check(rules[|rules| - 1], i, ctx);
      if found.Some? then rest + [found.value] else rest
  }

  /** Everything the guards hold against an intent. */
  function AllViolations(i: PerpIntent, ctx: GuardContext): seq<Code> {
    if !ShapeOk(i) then [InvalidPerpIntent] else Violations(RULES, i, ctx)
  }

  predicate Admitted(i: PerpIntent, ctx: GuardContext) {
    AllViolations(i, ctx) == []
  }

  lemma {:induction false} ViolationsPrefix(rules: seq<Rule>, n: nat, i: PerpIntent, ctx: GuardContext)
    requires n <= |rules|
    ensures Violations(rules[..n], i, ctx) <= Violations(rules, i, ctx)
    ensures n < |rules| && Check(rules[n], i, ctx).Some? ==>
              Violations(rules[..n], i, ctx) + [Check(rules[n], i, ctx).value] <= Violations(rules, i, ctx)
  {
    if n < |rules| {
      var init := rules[..|rules| - 1];
      if n < |init| {
        ViolationsPrefix(init, n, i, ctx);
        assert init[..n] == rules[..n];
      } else {
        assert rules[..n] == init;
      }
    } else {
      assert rules[..n] == rules;
    }
  }

  /**
   * Enforcement stops at the first violation. It refuses exactly when the advisory list is non-empty, with
   * that list's first code, so advice and enforcement can never disagree.
   */
  method PerpGuards(i: PerpIntent, ctx: GuardContext) returns (thrown: Option<Code>)
    ensures thrown.None? <==> Admitted(i, ctx)
    ensures thrown.Some? ==> thrown.value == AllViolations(i, ctx)[0]
  {
    if !ShapeOk(i) {
      return Some(InvalidPerpIntent);
    }
    for n := 0 to |RULES|
      invariant Violations(RULES[..n], i, ctx) == []
    {
      assert RULES[..n + 1][..n] == RULES[..n];
      var violation := Check(RULES[n], i, ctx);
      if violation.Some? {
        ViolationsPrefix(RULES, n, i, ctx);
        return violation;
      }
    }
    assert RULES[..|RULES|] == RULES;
    return None;
  }

  /** The advisory path collects every violation. */
  method EvaluatePerpGuards(i: PerpIntent, ctx: GuardContext) returns (ok: bool, violations: seq<Code>)
    ensures violations == AllViolations(i, ctx)
    ensures ok == Admitted(i, ctx)
  {
    if !ShapeOk(i) {
      return false, [InvalidPerpIntent];
    }
    violations := [];
    for n := 0 to |RULES|
      invariant violations == Violations(RULES[..n], i, ctx)
    {
      assert RULES[..n + 1][..n] == RULES[..n];
      var violation := Check(RULES[n], i, ctx);
      if violation.Some? {
        violations := violations + [violation.value];
      }
    }
    assert RULES[..|RULES|] == RULES;
    ok := violations == [];
  }

  lemma AdmittedPasses(i: PerpIntent, ctx: GuardContext, rule: Rule)
    requires Admitted(i, ctx) && rule in RULES
    ensures ShapeOk(i) && Check(rule, i, ctx).None?
  {
    var n :| 0 <= n < |RULES| && RULES[n] == rule;
    ViolationsPrefix(RULES, n, i, ctx);
  }

  // ---- what admission guarantees -----------------------------------------------------------------

  /** A model estimate that clears the floor keeps the leverage under the ceiling. */
  lemma LeverageUnderCeiling(side: Side, entry: real, leverage: real, m: real, floor: int)
    requires entry > 0.0 && leverage > 0.0 && leverage * m <= 1.0
    requires MaxLeverageForDistance(floor, side, Finite(m)).Some?
    requires var price := ModelLiquidationPrice(side, Finite(entry), Finite(leverage), Finite(m));
      price.Some? ==> var d := LiquidationDistanceBps(side, Finite(entry), Finite(price.value)); d.Some? ==> d.value >= floor
    ensures leverage <= MaxLeverageForDistance(floor, side, Finite(m)).value
  {
    if side == Long && leverage < 1.0 {
      SubUnitLong(leverage, m, floor);
    } else {
      ModelUsable(side, entry, leverage, m);
      ModelDistance(side, entry, leverage, m, floor);
      RatioAgainstDenominator(side, leverage, m, floor);
      CeilingIsReciprocal(side, leverage, m, floor);
    }
  }

  /** For an admitted opening intent every estimate that exists, the venue's or the model's, clears the floor. */
  lemma AdmittedClearsFloor(i: PerpIntent, ctx: GuardContext)
    requires Admitted(i, ctx) && IsOpening(i.kind)
    ensures ShapeOk(i)
    ensures var floor := ctx.policy.minLiquidationDistanceBps;
      && (i.perp.venueLiquidationPrice.Some? ==>
            var d := LiquidationDistanceBps(i.perp.side, i.perp.entryPrice, i.perp.venueLiquidationPrice.value);
            d.Some? ==> d.value >= floor)
      && (ModelPriceOf(i.perp).Some? ==>
            var d := LiquidationDistanceBps(i.perp.side, i.perp.entryPrice, Finite(ModelPriceOf(i.perp).value));
            d.Some? ==> d.value >= floor)
  {
    AdmittedPasses(i, ctx, LiquidationDistanceOk);
    ReconcileIsMinimum(i.perp.side, i.perp.entryPrice, i.perp.venueLiquidationPrice, ModelPriceOf(i.perp),
                       ctx.policy.liquidationToleranceBps);
  }

  /** An admitted opening intent whose leverage is within the reciprocal margin ratio obeys the leverage ceiling. */
  lemma AdmittedLeverageIsBounded(i: PerpIntent, ctx: GuardContext)
    requires Admitted(i, ctx) && IsOpening(i.kind)
    ensures ShapeOk(i)
    ensures i.perp.leverage.value * i.perp.maintenanceMarginRatio.value <= 1.0 ==>
      var ceiling := MaxLeverageForDistance(ctx.policy.minLiquidationDistanceBps, i.perp.side,
                                            i.perp.maintenanceMarginRatio);
      ceiling.Some? ==> i.perp.leverage.value <= ceiling.value
  {
    AdmittedClearsFloor(i, ctx);
    var floor, p := ctx.policy.minLiquidationDistanceBps, i.perp;
    var lev, m := p.leverage.value, p.maintenanceMarginRatio.value;
    if lev * m <= 1.0 && MaxLeverageForDistance(floor, p.side, Finite(m)).Some? {
      LeverageUnderCeiling(p.side, p.entryPrice.value, lev, m, floor);
    }
  }

  /** What an order adds: at most the notional and the collateral an opening intent was admitted with. */
  predicate FillsWithin(i: PerpIntent, fill: PerpPosition) {
    && fill.notionalMint == i.perp.notionalMint && fill.collateralMint == i.perp.collateralMint
    && 0 <= fill.notionalAmount <= AdmittedNotional(i)
    && 0 <= fill.collateralAmount <= i.perp.collateralAmount
  }

  lemma AdmittedLeg(i: PerpIntent, ctx: GuardContext)
    requires Admitted(i, ctx) && IsOpening(i.kind)
    ensures ShapeOk(i) && BucketOf(i).Some?
    ensures var caps := CapsForBucket(ctx.policy, BucketOf(i).value);
      && AdmittedNotional(i) <= caps.maxNotionalPerPosition
      && (i.perp.collateralAmount > 0 ==> i.perp.collateralAmount <= caps.maxCollateralPerPosition)
  {
    AdmittedPasses(i, ctx, CollateralCappable);
    AdmittedPasses(i, ctx, CollateralWithinCap);
    AdmittedPasses(i, ctx, NotionalWithinCap);
  }

  lemma AdmittedPortfolio(i: PerpIntent, ctx: GuardContext)
    requires Admitted(i, ctx) && IsOpening(i.kind)
    ensures ShapeOk(i) && BucketOf(i).Some? && !ctx.exposure.stale
    ensures var bucket := BucketOf(i).value;
      NotionalByBucket(ctx.exposure, bucket) + AdmittedNotional(i) <= CapsForBucket(ctx.policy, bucket).maxPortfolioNotional
    ensures i.kind.PerpOpen? && ctx.position.None? ==> ctx.exposure.openPositions < ctx.policy.maxOpenPositions
  {
    AdmittedPasses(i, ctx, CollateralCappable);
    AdmittedPasses(i, ctx, PortfolioWithinCap);
    AdmittedPasses(i, ctx, PositionCountWithinCap);
  }

  lemma LegCounts(i: PerpIntent, fill: PerpPosition, bucket: QuoteBucket)
    requires ShapeOk(i) && BucketOf(i) == Some(bucket) && FillsWithin(i, fill)
    ensures Bucketed(fill)
    ensures NotionalIn(fill, bucket) == fill.notionalAmount && CollateralIn(fill, bucket) == fill.collateralAmount
  {
  }

  /**
   * Input-leg caps. Admitted against a snapshot of the positions held, an opening intent adds a leg within the
   * per-position caps and leaves the whole portfolio within its cap; where nothing was held in its market, that
   * leg is the position and there is a slot for it.
   */
  lemma AdmittedStaysWithinCaps(i: PerpIntent, ctx: GuardContext, held: seq<PerpPosition>, fill: PerpPosition)
    requires Admitted(i, ctx) && IsOpening(i.kind)
    requires ctx.exposure == ExposureOf(held) && FillsWithin(i, fill)
    ensures BucketOf(i).Some?
    ensures var bucket := BucketOf(i).value; var caps := CapsForBucket(ctx.policy, bucket);
      && NotionalIn(fill, bucket) <= caps.maxNotionalPerPosition
      && (fill.collateralAmount > 0 ==> CollateralIn(fill, bucket) <= caps.maxCollateralPerPosition)
      && TotalNotional(held + [fill], bucket) <= caps.maxPortfolioNotional
      && !ExposureOf(held + [fill]).stale
    ensures i.kind.PerpOpen? && ctx.position.None? ==> |held + [fill]| <= ctx.policy.maxOpenPositions
  {
    AdmittedLeg(i, ctx);
    AdmittedPortfolio(i, ctx);
    var bucket := BucketOf(i).value;
    LegCounts(i, fill, bucket);
    assert (held + [fill])[..|held|] == held;
    assert TotalNotional(held, bucket) == NotionalByBucket(ctx.exposure, bucket);
  }

  // ---- a position that is added to ---------------------------------------------------------------

  /** Amounts grow away from zero: a short's exposure is exposure too. */
  function Grown(held: int, added: nat): int {
    if held < 0 then held - added else held + added
  }

  /** A held position after a fill in its own market. */
  function Enlarged(held: PerpPosition, fill: PerpPosition): PerpPosition
    requires fill.notionalAmount >= 0 && fill.collateralAmount >= 0
  {
    held.(notionalAmount := Grown(held.notionalAmount, fill.notionalAmount),
          collateralAmount := Grown(held.collateralAmount, fill.collateralAmount))
  }

  predicate WithinPositionCaps(p: PerpPosition, caps: PerpsCaps) {
    Abs(p.notionalAmount) <= caps.maxNotionalPerPosition && Abs(p.collateralAmount) <= caps.maxCollateralPerPosition
  }

  /** Whatever an admitted intent fills, the position it adds to stays within the per-position caps. */
  ghost predicate AdditionsFit(i: PerpIntent, held: PerpPosition, caps: PerpsCaps) {
    forall fill | FillsWithin(i, fill) :: WithinPositionCaps(Enlarged(held, fill), caps)
  }

  /**
   * The guards look at the added leg alone, so whether the enlarged position stays within the per-position caps
   * is not theirs to say: it does, whatever is filled, if and only if what is held and what is asked for do
   * together.
   */
  lemma AdditionsFitIff(i: PerpIntent, held: PerpPosition, caps: PerpsCaps)
    requires ShapeOk(i)
    ensures AdditionsFit(i, held, caps) <==>
      && Abs(held.notionalAmount) + AdmittedNotional(i) <= caps.maxNotionalPerPosition
      && Abs(held.collateralAmount) + i.perp.collateralAmount <= caps.maxCollateralPerPosition
  {
    var whole := held.(notionalMint := i.perp.notionalMint, collateralMint := i.perp.collateralMint,
                       notionalAmount := AdmittedNotional(i), collateralAmount := i.perp.collateralAmount);
    assert FillsWithin(i, whole);
    assert AdditionsFit(i, held, caps) ==> WithinPositionCaps(Enlarged(held, whole), caps);
  }

  lemma {:induction false} TotalsAfterReplacing(ps: seq<PerpPosition>, k: nat, q: PerpPosition, bucket: QuoteBucket)
    requires k < |ps| && (Bucketed(q) <==> Bucketed(ps[k]))
    ensures TotalNotional(ps[k := q], bucket) == TotalNotional(ps, bucket) - NotionalIn(ps[k], bucket) + NotionalIn(q, bucket)
    ensures Unbucketed(ps[k := q]) == Unbucketed(ps)
  {
    var n := |ps| - 1;
    if k == n {
      assert ps[k := q][..n] == ps[..n];
    } else {
      TotalsAfterReplacing(ps[..n], k, q, bucket);
      assert ps[k := q][..n] == ps[..n][k := q];
    }
  }

  /** The portfolio cap does cover a position that is added to. */
  lemma AdditionStaysWithinPortfolio(i: PerpIntent, ctx: GuardContext, held: seq<PerpPosition>, k: nat, fill: PerpPosition)
    requires Admitted(i, ctx) && IsOpening(i.kind)
    requires ctx.exposure == ExposureOf(held) && k < |held| && FillsWithin(i, fill)
    requires QuoteBucketFor(held[k].notionalMint) == BucketOf(i)
    ensures BucketOf(i).Some?
    ensures var after, bucket := held[k := Enlarged(held[k], fill)], BucketOf(i).value;
      && TotalNotional(after, bucket) <= CapsForBucket(ctx.policy, bucket).maxPortfolioNotional
      && !ExposureOf(after).stale
  {
    AdmittedPortfolio(i, ctx);
    var bucket := BucketOf(i).value;
    assert TotalNotional(held, bucket) == NotionalByBucket(ctx.exposure, bucket);
    TotalsAfterReplacing(held, k, Enlarged(held[k], fill), BucketOf(i).value);
  }

  // ---- exits stay open ---------------------------------------------------------------------------

  /** Same exit, whatever the entry-quality data and the arm state around it. */
  predicate SameExit(i: PerpIntent, j: PerpIntent) {
    j == i.(perp := i.perp.(leverage := j.perp.leverage, notionalAmount := j.perp.notionalAmount,
                            entryPrice := j.perp.entryPrice, markPrice := j.perp.markPrice,
                            oraclePrice := j.perp.oraclePrice,
                            maintenanceMarginRatio := j.perp.maintenanceMarginRatio,
                            venueLiquidationPrice := j.perp.venueLiquidationPrice,
                            fundingBpsPerHour := j.perp.fundingBpsPerHour))
  }

  predicate SameExitContext(a: GuardContext, b: GuardContext) {
    b == a.(killSwitch := b.killSwitch, exposure := b.exposure,
            policy := a.policy.(perpsEnabled := b.policy.perpsEnabled, windDownOnly := b.policy.windDownOnly,
                                maxLeverage := b.policy.maxLeverage,
                                minLiquidationDistanceBps := b.policy.minLiquidationDistanceBps,
                                maxFundingRateBpsPerHour := b.policy.maxFundingRateBpsPerHour,
                                maxAdverseFundingBpsPerHour := b.policy.maxAdverseFundingBpsPerHour,
                                maxOracleDivergenceBps := b.policy.maxOracleDivergenceBps,
                                liquidationToleranceBps := b.policy.liquidationToleranceBps,
                                maxOpenPositions := b.policy.maxOpenPositions,
                                capsSol := b.policy.capsSol, capsUsdc := b.policy.capsUsdc))
  }

  /** The readings every kind of intent must carry in usable form, exits included. */
  predicate EntryInputsUsable(p: PerpDetail) {
    && PositiveNumber(p.leverage) && p.notionalAmount >= 0
    && PositiveNumber(p.entryPrice) && PositiveNumber(p.markPrice) && PositiveNumber(p.oraclePrice)
    && p.maintenanceMarginRatio.Finite? && 0.0 <= p.maintenanceMarginRatio.value < 1.0
  }

  lemma {:induction false} ExitViolationsSame(rules: seq<Rule>, i: PerpIntent, j: PerpIntent, a: GuardContext, b: GuardContext)
    requires IsReducing(i.kind) && i.perp.collateralAmount == 0 && SameExit(i, j) && SameExitContext(a, b)
    ensures Violations(rules, i, a) == Violations(rules, j, b)
  {
    if rules != [] {
      ExitViolationsSame(rules[..|rules| - 1], i, j, a, b);
      ExitCheckSame(rules[|rules| - 1], i, j, a, b);
    }
  }

  lemma ExitCheckSame(rule: Rule, i: PerpIntent, j: PerpIntent, a: GuardContext, b: GuardContext)
    requires IsReducing(i.kind) && i.perp.collateralAmount == 0 && SameExit(i, j) && SameExitContext(a, b)
    ensures Check(rule, i, a) == Check(rule, j, b)
  {
    assert j.kind == i.kind && j.perp.collateralAmount == 0 && j.perp.market == i.perp.market;
  }

  lemma {:induction false} NeverInvalid(rules: seq<Rule>, i: PerpIntent, ctx: GuardContext)
    ensures InvalidPerpIntent !in Violations(rules, i, ctx)
  {
    if rules != [] {
      NeverInvalid(rules[..|rules| - 1], i, ctx);
    }
  }

  /**
   * When exits stay open. For a reducing intent that posts no collateral the whole verdict, code by code, is the
   * same for every value of the kill switch, the perps arm, wind-down, the exposure snapshot, the size caps,
   * funding and the venue's liquidation price; and for other prices, leverage, notional and margin ratio if and
   * only if these are usable. One that is not blocks the exit, as a malformed intent.
   */
  lemma ExitsStayOpen(i: PerpIntent, j: PerpIntent, a: GuardContext, b: GuardContext)
    requires IsReducing(i.kind) && i.perp.collateralAmount == 0 && ShapeOk(i)
    requires SameExit(i, j) && SameExitContext(a, b)
    ensures AllViolations(i, a) == AllViolations(j, b) <==> EntryInputsUsable(j.perp)
    ensures !EntryInputsUsable(j.perp) ==> AllViolations(j, b) == [InvalidPerpIntent]
  {
    ExitViolationsSame(RULES, i, j, a, b);
    NeverInvalid(RULES, i, a);
    assert ShapeOk(j) <==> EntryInputsUsable(j.perp);
  }
}
