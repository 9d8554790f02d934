/** The deterministic guards of the money path (src/kernel/policy-engine.ts, src/kernel/contracts.ts). */
module PolicyEngine {
  import opened Options
  import opened Money

  /** Tolerance between the route's min-out and the clamped slippage. */
  const MIN_OUT_TOLERANCE_BPS := 50

  /** Every supported intent kind; `UnsupportedKind` is any other string a caller may send. */
  datatype IntentKind =
    | Swap
    | PerpOpen | PerpIncrease | PerpReduce | PerpClose
    | LpOpen | LpAdd | LpRemove | LpClose | LpClaim | LpRebalance | CurveBuy | CurveSell
    | UnsupportedKind(name: string)

  predicate IsPerpKind(kind: IntentKind) {
    kind.PerpOpen? || kind.PerpIncrease? || kind.PerpReduce? || kind.PerpClose?
  }

  /** A reduce or a close hands the venue an order, not money. */
  predicate PostsZeroCollateral(kind: IntentKind) {
    kind.PerpReduce? || kind.PerpClose?
  }

  datatype Side = Long | Short

  datatype SpendCaps = SpendCaps(perTrade: int, perHour: int, perDay: int)

  datatype PolicyConfig = PolicyConfig(
    executionEnabled: bool,
    killSwitch: bool,
    maxSlippageBps: nat,
    capsSol: SpendCaps,
    capsUsdc: SpendCaps,
    mintAllowlist: Option<seq<string>>,
    mintDenylist: seq<string>,
    allowToken2022: bool,
    priorityFeeMaxLamports: int,
    priorityFeeMaxBps: nat)

  function CapsFor(policy: PolicyConfig, bucket: QuoteBucket): SpendCaps {
    if bucket == Sol then policy.capsSol else policy.capsUsdc
  }

  /** A JavaScript number: finite ones are idealised as reals. */
  datatype Number = NotFinite | Finite(value: real)

  datatype PerpLeg = PerpLeg(
    venue: string,
    market: string,
    accountSubId: int,
    side: Side,
    expectedBaseAmount: int,
    minBaseAmount: int)

  datatype Quote = Quote(outAmount: int, minOutAmount: int, slippageBps: int)

  datatype TradeIntent = TradeIntent(
    kind: IntentKind,
    inputMint: string,
    inputAmount: int,
    outputMint: string,
    inputUntrusted: bool,
    outputUntrusted: bool,
    unsignedTx: string,
    lastValidBlockHeight: int,
    priorityFeeLamports: Number,
    quote: Quote,
    perp: Option<PerpLeg>)

  datatype GuardCode =
    | KillSwitch | ExecutionDisabled | InvalidIntent | MintNotPinned
    | PriorityFeeInvalid | PriorityFeeExceeded | SlippageExceeded | MinOutMismatch | MintDenied

  datatype Verdict = Accepted | Refused(code: GuardCode)

  datatype GuardOptions = GuardOptions(dryRun: bool, confirmedByUser: bool)

  predicate MintRefused(policy: PolicyConfig, mint: string) {
    mint in policy.mintDenylist
    || (policy.mintAllowlist.Some? && mint !in policy.mintAllowlist.value)
  }

  /** The first failing guard, in the order the source checks them. */
  function StaticGuards(policy: PolicyConfig, intent: TradeIntent, opts: GuardOptions): Verdict {
    if policy.killSwitch then Refused(KillSwitch)
    else if !opts.dryRun && !policy.executionEnabled then Refused(ExecutionDisabled)
    else if intent.kind.UnsupportedKind? then Refused(InvalidIntent)
    else if PostsZeroCollateral(intent.kind) && intent.inputAmount < 0 then Refused(InvalidIntent)
    else if !PostsZeroCollateral(intent.kind) && intent.inputAmount <= 0 then Refused(InvalidIntent)
    else if PerpLegRefused(intent) then Refused(InvalidIntent)
    else if intent.unsignedTx == "" then Refused(InvalidIntent)
    else if (intent.inputUntrusted || intent.outputUntrusted) && !opts.confirmedByUser then Refused(MintNotPinned)
    else if intent.priorityFeeLamports.NotFinite? || intent.priorityFeeLamports.value < 0.0 then
      Refused(PriorityFeeInvalid)
    else if FeeLamports(intent) > policy.priorityFeeMaxLamports then Refused(PriorityFeeExceeded)
    else if FeeAboveNotional(policy, intent) then Refused(PriorityFeeExceeded)
    else if intent.quote.slippageBps > policy.maxSlippageBps then Refused(SlippageExceeded)
    else if SlippageBps(intent.quote.outAmount, intent.quote.minOutAmount)
            > policy.maxSlippageBps + MIN_OUT_TOLERANCE_BPS then Refused(MinOutMismatch)
    else if MintRefused(policy, intent.inputMint) || MintRefused(policy, intent.outputMint) then Refused(MintDenied)
    else Accepted
  }

  /** A perp leg is required, with consistent sizes, for a perp kind and forbidden for any other. */
  predicate PerpLegRefused(intent: TradeIntent) {
    if IsPerpKind(intent.kind) then
      intent.perp.None?
      || intent.perp.value.minBaseAmount > intent.perp.value.expectedBaseAmount
      || intent.perp.value.expectedBaseAmount <= 0
    else
      intent.perp.Some?
  }

  function FeeLamports(intent: TradeIntent): int
    requires intent.priorityFeeLamports.Finite?
  {
    intent.priorityFeeLamports.value.Floor
  }

  /** The bps-of-notional fee ceiling; it binds only where there is a quote-asset notional. */
  predicate FeeAboveNotional(policy: PolicyConfig, intent: TradeIntent)
    requires intent.priorityFeeLamports.Finite?
  {
    && QuoteBucketFor(intent.inputMint).Some?
    && intent.inputAmount > 0
    && FeeLamports(intent) > intent.inputAmount * policy.priorityFeeMaxBps / 10_000
  }

  /** What a spend cap can rely on: no accepted intent declares a negative outflow. */
  lemma AcceptedAmount(policy: PolicyConfig, intent: TradeIntent, opts: GuardOptions)
    requires StaticGuards(policy, intent, opts).Accepted?
    ensures intent.inputAmount >= 0
    ensures intent.inputAmount == 0 ==> PostsZeroCollateral(intent.kind)
  {
  }

  /**
   * An exit that posts nothing is refused for its fee only by the absolute ceiling:
   * replacing the bps-of-notional ceiling by any other leaves the verdict as it was.
   */
  lemma ExitIgnoresNotionalFeeCeiling(policy: PolicyConfig, intent: TradeIntent, opts: GuardOptions, bps: nat)
    requires PostsZeroCollateral(intent.kind) && intent.inputAmount == 0
    ensures StaticGuards(policy, intent, opts)
         == StaticGuards(policy.(priorityFeeMaxBps := bps), intent, opts)
    ensures StaticGuards(policy, intent, opts) == Refused(PriorityFeeExceeded)
         ==> intent.priorityFeeLamports.Finite? && FeeLamports(intent) > policy.priorityFeeMaxLamports
  {
  }
}
