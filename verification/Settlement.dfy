/**
 * What a confirmed trade is measured to have filled (src/kernel/trade-gateway.ts, `#settle`) and the venue
 * position a perp fill is measured on (src/perps/settle.ts).
 */
module Settlement {
  import opened Options
  import opened Basics
  import opened Money
  import opened PolicyEngine
  import opened Perps

  datatype Problem = SettleShortfall | SettleUnverified

  datatype Fill = Fill(effectiveSlippageBps: int, positionDelta: Option<int>, problem: Option<Problem>)

  function Clamp(x: int): int { if x > 0 then x else 0 }

  /** Token settle: the output balance must have grown by the route's min-out. */
  function SettleToken(quote: Quote, outputDelta: int): Fill {
    Fill(SlippageBps(quote.outAmount, Clamp(outputDelta)), None,
         if outputDelta < quote.minOutAmount then Some(SettleShortfall) else None)
  }

  /** Position settle: the signed position must have moved the order's way by at least the minimum. */
  function SettlePosition(leg: PerpLeg, before: int, after: int): Fill {
    var delta := after - before;
    var filled := if leg.side == Long then delta else -delta;
    Fill(SlippageBps(leg.expectedBaseAmount, Clamp(filled)), Some(delta),
         if filled < leg.minBaseAmount then Some(SettleShortfall) else None)
  }

  /** `before` is the position snapshot taken before signing, `after` the read after confirmation. */
  function Settle(intent: TradeIntent, outputDelta: int, before: Option<int>, after: Option<int>): Fill {
    if intent.perp.None? || !IsPerpKind(intent.kind) || before.None? then SettleToken(intent.quote, outputDelta)
    else if after.None? then Fill(0, None, Some(SettleUnverified))
    else SettlePosition(intent.perp.value, before.value, after.value)
  }

  /**
   * The slippage bound end to end: a trade the guards accepted and the settle found nothing wrong with has
   * received its min-out, more than (9949 - max) / 10000 of what was expected, and measures at most the clamp
   * plus the tolerance.
   */
  lemma EndToEndSlippage(policy: PolicyConfig, intent: TradeIntent, opts: GuardOptions, received: int)
    requires StaticGuards(policy, intent, opts).Accepted?
    requires !IsPerpKind(intent.kind) && intent.quote.outAmount > 0
    requires Settle(intent, received, None, None).problem.None?
    ensures received >= intent.quote.minOutAmount
    ensures received * 10_000 > intent.quote.outAmount * (9_949 - policy.maxSlippageBps)
    ensures Settle(intent, received, None, None).effectiveSlippageBps <= policy.maxSlippageBps + MIN_OUT_TOLERANCE_BPS
  {
    var out, least := intent.quote.outAmount, intent.quote.minOutAmount;
    SlippageMonotone(out, least, received);
    SlippageMonotone(out, received, Clamp(received));
    SlippageWithin(out, received, policy.maxSlippageBps + MIN_OUT_TOLERANCE_BPS);
  }

  // ---- the venue position ------------------------------------------------------------------------

  function Signed(p: PerpPosition): int {
    if p.side == Long then p.baseAmount else 0 - p.baseAmount
  }

  /** The reader compares symbols exactly; no position means flat. */
  function ReadPosition(positions: seq<PerpPosition>, market: string): int {
    if positions == [] then 0
    else if positions[0].symbol == market then Signed(positions[0])
    else ReadPosition(positions[1..], market)
  }

  /** The guards' snapshot compares symbols upper-cased (src/perps/exposure.ts). */
  function PositionIn(positions: seq<PerpPosition>, want: string): Option<PerpPosition> {
    if positions == [] then None
    else if Upper(positions[0].symbol) == want then Some(positions[0])
    else PositionIn(positions[1..], want)
  }

  predicate Canonical(s: string) { Upper(s) == s }

  /** A venue lists at most one position per symbol, in canonical upper case. */
  predicate WellListed(positions: seq<PerpPosition>) {
    && (forall i | 0 <= i < |positions| :: Canonical(positions[i].symbol))
    && (forall i, j | 0 <= i < j < |positions| :: positions[i].symbol != positions[j].symbol)
  }

  /** On canonical symbols the reader and the guards look at the same position. */
  lemma {:induction false} ReaderAgrees(positions: seq<PerpPosition>, market: string)
    requires WellListed(positions) && Canonical(market)
    ensures ReadPosition(positions, market)
         == (var p := PositionIn(positions, market); if p.None? then 0 else Signed(p.value))
  {
    if positions != [] {
      assert Canonical(positions[0].symbol);
      assert WellListed(positions[1..]);
      ReaderAgrees(positions[1..], market);
    }
  }

  /** An order of `f` filled base units moves the signed position its own way, through zero if need be. */
  predicate FilledBy(before: seq<PerpPosition>, after: seq<PerpPosition>, market: string, order: Side, f: nat) {
    ReadPosition(after, market) == ReadPosition(before, market) + if order == Long then f else 0 - f
  }

  /** The slice of a perp intent the gateway settles on. */
  function LegOf(p: PerpDetail): PerpLeg {
    PerpLeg(p.venue, p.market, 0, p.side, p.expectedBaseAmount, p.minBaseAmount)
  }

  /**
   * Reductions never flip. Whatever part `f` of its expected size an admitted reduce or close fills, the
   * position keeps its side or ends flat and shrinks by exactly `f`; the settle measures exactly `f` whichever
   * side the position is on, and reports a shortfall if and only if `f` is below the committed minimum.
   */
  lemma ReductionsNeverFlip(i: PerpIntent, ctx: GuardContext, before: seq<PerpPosition>, after: seq<PerpPosition>, f: nat)
    requires Admitted(i, ctx) && IsReducing(i.kind)
    requires WellListed(before) && Canonical(i.perp.market)
    requires ctx.position == PositionIn(before, i.perp.market)
    requires f <= i.perp.expectedBaseAmount && FilledBy(before, after, i.perp.market, i.perp.side, f)
    ensures ctx.position.Some?
    ensures var pre, post := ReadPosition(before, i.perp.market), ReadPosition(after, i.perp.market);
      && Abs(post) == Abs(pre) - f
      && (post == 0 || (post > 0 <==> pre > 0))
      && (var fill := SettlePosition(LegOf(i.perp), pre, post);
          && fill.positionDelta == Some(post - pre)
          && fill.effectiveSlippageBps == SlippageBps(i.perp.expectedBaseAmount, f)
          && (fill.problem == Some(SettleShortfall) <==> f < i.perp.minBaseAmount))
  {
    AdmittedPasses(i, ctx, ReduceIsAReduction);
    ReaderAgrees(before, i.perp.market);
  }
}
