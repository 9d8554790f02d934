/** Admitted intents that show what the perp guards do not promise. */
module PerpLimits {
  import opened Options
  import opened Basics
  import opened Money
  import opened PolicyEngine
  import opened Perps

  lemma {:induction false} NothingFound(rules: seq<Rule>, i: PerpIntent, ctx: GuardContext)
    requires forall rule :: Check(rule, i, ctx).None?
    ensures Violations(rules, i, ctx) == []
  {
    if rules != [] {
      NothingFound(rules[..|rules| - 1], i, ctx);
    }
  }

  const CAPS := PerpsCaps(100, 100, 1_000)
  const POLICY := PerpsPolicy(true, false, 10.0, 1_000, 5.0, 5.0, 100, 100, 100, 3, CAPS, CAPS, None, [], [USDC_MINT])

  /** A long of 80 in one market, on 40 of collateral. */
  const HELD := PerpPosition("SOL-PERP", Long, 8, USDC_MINT, 80, USDC_MINT, 40)
  const HOLDING := Exposure(1, 0, 80, 0, 40, false, 0)
  const CONTEXT := GuardContext(POLICY, false, true, HOLDING, Some(HELD), true, false)

  function Leg(side: Side, reduceOnly: bool, collateral: int, notional: int, oracle: Number): PerpDetail {
    PerpDetail("venue", "SOL-PERP", side, false, None, reduceOnly, Finite(2.0), 50, 3, 3, USDC_MINT, collateral,
               USDC_MINT, notional, Finite(100.0), Finite(100.0), oracle, Finite(0.0), ActiveMarket, None,
               Some(Finite(0.0)))
  }

  function Order(kind: IntentKind, leg: PerpDetail): PerpIntent {
    PerpIntent(kind, "agent", "tx", "hash", 1, Finite(0.0), USDC_MINT, leg.collateralAmount, leg)
  }

  lemma HoldingIsOne()
    ensures ExposureOf([HELD]) == HOLDING
  {
    assert [HELD][..0] == [];
    assert USDC_MINT[0] == 'E' && WSOL_MINT[0] == 'S';
    assert QuoteBucketFor(USDC_MINT) == Some(Usdc);
    forall bucket: QuoteBucket
      ensures TotalNotional([HELD], bucket) == NotionalIn(HELD, bucket)
      ensures TotalCollateral([HELD], bucket) == CollateralIn(HELD, bucket)
    {
      assert TotalNotional([], bucket) == 0 && TotalCollateral([], bucket) == 0;
    }
    assert Unbucketed([HELD]) == Unbucketed([]) == 0;
  }

  // ---- an exit that is blocked -------------------------------------------------------------------

  /** Closes three units of the long without posting anything. */
  function Exit(oracle: Number): PerpIntent {
    Order(PerpClose, Leg(Short, true, 0, 0, oracle))
  }

  /** The exit is admitted while the oracle has a price, and refused as malformed when it has none. */
  lemma UnusableReadingBlocksExit()
    ensures Admitted(Exit(Finite(100.0)), CONTEXT)
    ensures SameExit(Exit(Finite(100.0)), Exit(NotFinite))
    ensures AllViolations(Exit(NotFinite), CONTEXT) == [InvalidPerpIntent]
  {
    var exit := Exit(Finite(100.0));
    forall rule ensures Check(rule, exit, CONTEXT).None? {
    }
    NothingFound(RULES, exit, CONTEXT);
    ExitsStayOpen(exit, Exit(NotFinite), CONTEXT, CONTEXT);
  }

  // ---- an addition beyond the cap ----------------------------------------------------------------

  /** Adds 30 to the long of 80, on 15 of collateral at double leverage. */
  function Addition(kind: IntentKind): PerpIntent {
    Order(kind, Leg(Long, false, 15, 30, Finite(100.0)))
  }

  lemma AdditionAdmitted(kind: IntentKind)
    requires IsOpening(kind)
    ensures Admitted(Addition(kind), CONTEXT) && AdmittedNotional(Addition(kind)) == 30
  {
    var i := Addition(kind);
    assert LeverageToBps(Finite(2.0)) == Some(20_000);
    assert AdmittedNotional(i) == 30;
    LiquidationFarAway();
    forall rule ensures Check(rule, i, CONTEXT).None? {
    }
    NothingFound(RULES, i, CONTEXT);
  }

  lemma LiquidationFarAway()
    ensures ModelPriceOf(Leg(Long, false, 15, 30, Finite(100.0))) == Some(50.0)
  {
  }

  /**
   * An increase, or an open in a market already held, is admitted although the position it leaves exceeds the
   * per-position cap: 110 under a cap of 100.
   */
  lemma AdditionCanExceedCap(kind: IntentKind)
    requires IsOpening(kind)
    ensures Admitted(Addition(kind), CONTEXT)
    ensures CONTEXT.position == Some(HELD) && CONTEXT.exposure == ExposureOf([HELD])
    ensures var fill := HELD.(notionalAmount := 30, collateralAmount := 15);
      && FillsWithin(Addition(kind), fill)
      && Abs(Enlarged(HELD, fill).notionalAmount) == 110 > CapsForBucket(CONTEXT.policy, Usdc).maxNotionalPerPosition
    ensures !AdditionsFit(Addition(kind), HELD, CAPS)
  {
    AdditionAdmitted(kind);
    HoldingIsOne();
    AdditionsFitIff(Addition(kind), HELD, CAPS);
  }
}
