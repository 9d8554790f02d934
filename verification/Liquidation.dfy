/** Liquidation arithmetic (src/perps/liquidation.ts), with JavaScript's finite numbers idealised as reals. */
module Liquidation {
  import opened Options
  import opened PolicyEngine

  const BPS := 10_000.0

  predicate IsUsablePrice(x: Number) {
    x.Finite? && x.value > 0.0
  }

  function Scaled(price: real, factor: real, divisor: real): real
    requires divisor != 0.0
  {
    price * factor / divisor
  }

  /** Where a position opened at `entry` liquidates, or None for an unusable input. */
  function ModelLiquidationPrice(side: Side, entry: Number, leverage: Number, margin: Number): Option<real> {
    if !IsUsablePrice(entry) then None
    else if leverage.NotFinite? || leverage.value <= 0.0 then None
    else if margin.NotFinite? || margin.value < 0.0 || margin.value >= 1.0 then None
    else
      var price := if side == Long
        then Scaled(entry.value, 1.0 - 1.0 / leverage.value, 1.0 - margin.value)
        else Scaled(entry.value, 1.0 + 1.0 / leverage.value, 1.0 + margin.value);
      if price < 0.0 then None else Some(price)
  }

  /** Whole basis points from the reference to the liquidation price; None when already past it. */
  function LiquidationDistanceBps(side: Side, reference: Number, liquidation: Number): Option<int> {
    if !IsUsablePrice(reference) then None
    else if liquidation.NotFinite? || liquidation.value < 0.0 then None
    else
      var gap := if side == Long then reference.value - liquidation.value else liquidation.value - reference.value;
      if gap < 0.0 then None else Some((gap / reference.value * BPS).Floor)
  }

  /** The largest leverage that stays `minDistanceBps` away from liquidation; None when there is no bound. */
  function MaxLeverageForDistance(minDistanceBps: int, side: Side, margin: Number): Option<real> {
    if minDistanceBps < 0 || minDistanceBps >= 10_000 then None
    else if margin.NotFinite? || margin.value < 0.0 || margin.value >= 1.0 then None
    else
      var denom := Denominator(minDistanceBps, side, margin.value);
      if denom <= 0.0 then None else Some(1.0 / denom)
  }

  function Denominator(minDistanceBps: int, side: Side, m: real): real {
    var d := minDistanceBps as real / BPS;
    if side == Long then 1.0 - (1.0 - d) * (1.0 - m) else (1.0 + d) * (1.0 + m) - 1.0
  }

  datatype Source = FromVenue | FromModel
  datatype Reconciled =
    | Unusable
    | Estimate(distanceBps: int, source: Source, disagreementBps: Option<int>, disagrees: bool)

  /** The conservative one of the two estimates. */
  function ReconcileLiquidation(side: Side, reference: Number, venue: Option<Number>, model: Option<real>,
                                toleranceBps: int): Reconciled
  {
    if !IsUsablePrice(reference) then Unusable
    else
      var venueDist := if venue.None? then None else LiquidationDistanceBps(side, reference, venue.value);
      var modelDist := if model.None? then None else LiquidationDistanceBps(side, reference, Finite(model.value));
      if venueDist.None? && modelDist.None? then Unusable
      else if venueDist.Some? && modelDist.Some? then
        var gap := if venueDist.value < modelDist.value
                   then modelDist.value - venueDist.value else venueDist.value - modelDist.value;
        if venueDist.value <= modelDist.value
        then Estimate(venueDist.value, FromVenue, Some(gap), gap > toleranceBps)
        else Estimate(modelDist.value, FromModel, Some(gap), gap > toleranceBps)
      else if venueDist.Some? then Estimate(venueDist.value, FromVenue, None, false)
      else Estimate(modelDist.value, FromModel, None, false)
  }

  /** Mark against oracle, in whole basis points of the oracle price. */
  function OracleDivergenceBps(mark: Number, oracle: Number): Option<int> {
    if !IsUsablePrice(mark) || !IsUsablePrice(oracle) then None
    else
      var gap := if mark.value < oracle.value then oracle.value - mark.value else mark.value - oracle.value;
      Some((gap / oracle.value * BPS).Floor)
  }

  // ---- the inverse -------------------------------------------------------------------------------

  lemma FloorAtLeast(x: real, n: int)
    ensures x.Floor >= n <==> x >= n as real
  {
  }

  lemma CancelLeft(a: real, b: real, k: real)
    requires k > 0.0
    ensures k * a <= k * b <==> a <= b
  {
    if a <= b {
      assert k * (b - a) >= 0.0;
    } else {
      assert k * (a - b) > 0.0;
    }
  }

  lemma CancelDivisor(a: real, b: real, k: real)
    requires k > 0.0
    ensures a / k <= b <==> a <= b * k
    ensures b <= a / k <==> b * k <= a
  {
    var q := a / k;
    assert q * k == a;
    CancelLeft(q, b, k);
    CancelLeft(b, q, k);
  }

  /** The distance ratio of the model, free of the entry price. */
  function GapRatio(side: Side, leverage: real, m: real): real
    requires leverage > 0.0 && 0.0 <= m < 1.0
  {
    if side == Long then 1.0 - (1.0 - 1.0 / leverage) / (1.0 - m) else (1.0 + 1.0 / leverage) / (1.0 + m) - 1.0
  }

  lemma GapIsRatio(side: Side, entry: real, leverage: real, m: real)
    requires entry > 0.0 && leverage > 0.0 && 0.0 <= m < 1.0
    requires ModelLiquidationPrice(side, Finite(entry), Finite(leverage), Finite(m)).Some?
    ensures var price := ModelLiquidationPrice(side, Finite(entry), Finite(leverage), Finite(m)).value;
      (if side == Long then entry - price else price - entry) == entry * GapRatio(side, leverage, m)
  {
    if side == Long {
      var k := (1.0 - 1.0 / leverage) / (1.0 - m);
      MulDiv(entry, 1.0 - 1.0 / leverage, 1.0 - m);
      assert entry - entry * k == entry * (1.0 - k);
    } else {
      var k := (1.0 + 1.0 / leverage) / (1.0 + m);
      MulDiv(entry, 1.0 + 1.0 / leverage, 1.0 + m);
      assert entry * k - entry == entry * (k - 1.0);
    }
  }

  lemma MulDiv(a: real, b: real, c: real)
    requires c != 0.0
    ensures Scaled(a, b, c) == a * (b / c)
  {
    var q := b / c;
    assert q * c == b;
    assert a * b == (a * q) * c;
  }

  /** The ratio clears a floor exactly when the reciprocal leverage clears the denominator. */
  lemma RatioAgainstDenominator(side: Side, leverage: real, m: real, minBps: int)
    requires leverage > 0.0 && 0.0 <= m < 1.0
    ensures GapRatio(side, leverage, m) >= minBps as real / BPS
       <==> 1.0 / leverage >= Denominator(minBps, side, m)
  {
    var x := 1.0 / leverage;
    var d := minBps as real / BPS;
    if side == Long {
      CancelDivisor(1.0 - x, 1.0 - d, 1.0 - m);
    } else {
      CancelDivisor(1.0 + x, 1.0 + d, 1.0 + m);
    }
  }

  lemma DistanceOfGap(side: Side, entry: real, price: real, ratio: real, minBps: nat)
    requires entry > 0.0 && price >= 0.0
    requires (if side == Long then entry - price else price - entry) == entry * ratio
    ensures var dist := LiquidationDistanceBps(side, Finite(entry), Finite(price));
      && (dist.Some? <==> ratio >= 0.0)
      && (dist.Some? && dist.value >= minBps <==> ratio >= minBps as real / BPS)
  {
    CancelLeft(0.0, ratio, entry);
    var gap := entry * ratio;
    assert gap / entry == ratio;
    FloorAtLeast(ratio * BPS, minBps);
    CancelDivisor(minBps as real, ratio, BPS);
  }

  lemma ModelDistance(side: Side, entry: real, leverage: real, m: real, minBps: nat)
    requires entry > 0.0 && leverage > 0.0 && 0.0 <= m < 1.0
    requires ModelLiquidationPrice(side, Finite(entry), Finite(leverage), Finite(m)).Some?
    ensures var price := ModelLiquidationPrice(side, Finite(entry), Finite(leverage), Finite(m)).value;
      var dist := LiquidationDistanceBps(side, Finite(entry), Finite(price));
      && (dist.Some? <==> GapRatio(side, leverage, m) >= 0.0)
      && (dist.Some? && dist.value >= minBps <==> GapRatio(side, leverage, m) >= minBps as real / BPS)
  {
    GapIsRatio(side, entry, leverage, m);
    var price := ModelLiquidationPrice(side, Finite(entry), Finite(leverage), Finite(m)).value;
    DistanceOfGap(side, entry, price, GapRatio(side, leverage, m), minBps);
  }

  /**
   * The ceiling is the exact inverse of the distance: for a leverage of at least one, the model puts
   * liquidation at least `minBps` away if and only if the leverage is within `MaxLeverageForDistance`, where
   * None is no bound at all.
   */
  lemma LiquidationInverse(side: Side, entry: real, leverage: real, m: real, minBps: nat)
    requires entry > 0.0 && leverage >= 1.0 && 0.0 <= m < 1.0 && minBps < 10_000
    ensures var price := ModelLiquidationPrice(side, Finite(entry), Finite(leverage), Finite(m));
      var ceiling := MaxLeverageForDistance(minBps, side, Finite(m));
      && price.Some?
      && (var dist := LiquidationDistanceBps(side, Finite(entry), Finite(price.value));
          dist.Some? && dist.value >= minBps <==> ceiling.None? || leverage <= ceiling.value)
  {
    ModelPriceExists(side, entry, leverage, m);
    ModelDistance(side, entry, leverage, m, minBps);
    RatioAgainstDenominator(side, leverage, m, minBps);
    CeilingIsReciprocal(side, leverage, m, minBps);
  }

  lemma ModelPriceExists(side: Side, entry: real, leverage: real, m: real)
    requires entry > 0.0 && leverage > 0.0 && 0.0 <= m < 1.0
    requires side == Long ==> leverage >= 1.0
    ensures ModelLiquidationPrice(side, Finite(entry), Finite(leverage), Finite(m)).Some?
  {
    Reciprocal(leverage);
    if side == Long {
      QuotientNonNegative(entry, 1.0 - 1.0 / leverage, 1.0 - m);
    } else {
      QuotientNonNegative(entry, 1.0 + 1.0 / leverage, 1.0 + m);
    }
  }

  lemma Reciprocal(x: real)
    requires x > 0.0
    ensures 1.0 / x > 0.0
    ensures 1.0 / x <= 1.0 <==> x >= 1.0
  {
    var r := 1.0 / x;
    assert r * x == 1.0;
    CancelDivisor(1.0, 1.0, x);
  }

  lemma QuotientNonNegative(a: real, b: real, c: real)
    requires a > 0.0 && b >= 0.0 && c > 0.0
    ensures Scaled(a, b, c) >= 0.0
  {
    CancelLeft(0.0, b, a);
    var product := a * b;
    CancelDivisor(product, 0.0, c);
  }

  lemma CeilingIsReciprocal(side: Side, leverage: real, m: real, minBps: nat)
    requires leverage > 0.0 && 0.0 <= m < 1.0 && minBps < 10_000
    ensures var ceiling := MaxLeverageForDistance(minBps, side, Finite(m));
      ceiling.None? || leverage <= ceiling.value <==> 1.0 / leverage >= Denominator(minBps, side, m)
  {
    var denom := Denominator(minBps, side, m);
    var x := 1.0 / leverage;
    assert x * leverage == 1.0 && x > 0.0;
    if denom > 0.0 {
      CancelDivisor(1.0, leverage, denom);
      CancelDivisor(1.0, denom, leverage);
      assert denom * leverage == leverage * denom;
    }
  }

  /** Where leverage stays within the reciprocal margin ratio, the model has a distance to offer. */
  lemma ModelUsable(side: Side, entry: real, leverage: real, m: real)
    requires entry > 0.0 && leverage > 0.0 && 0.0 <= m < 1.0 && leverage * m <= 1.0
    requires side == Long ==> leverage >= 1.0
    ensures var price := ModelLiquidationPrice(side, Finite(entry), Finite(leverage), Finite(m));
      price.Some? && LiquidationDistanceBps(side, Finite(entry), Finite(price.value)).Some?
  {
    ModelPriceExists(side, entry, leverage, m);
    ModelDistance(side, entry, leverage, m, 0);
    RatioAgainstDenominator(side, leverage, m, 0);
    var x := 1.0 / leverage;
    CancelDivisor(1.0, m, leverage);
    assert Denominator(0, side, m) == m;
  }

  lemma PositiveProduct(a: real, b: real)
    requires a > 0.0 && b > 0.0
    ensures a * b > 0.0
  {
  }

  lemma LongDenominatorBelowOne(m: real, minBps: nat)
    requires 0.0 <= m < 1.0 && minBps < 10_000
    ensures Denominator(minBps, Long, m) < 1.0
  {
    var d := minBps as real / BPS;
    var a, b := 1.0 - d, 1.0 - m;
    PositiveProduct(a, b);
    assert Denominator(minBps, Long, m) == 1.0 - a * b;
  }

  /** Below unit leverage a long is under every ceiling. */
  lemma SubUnitLong(leverage: real, m: real, minBps: nat)
    requires 0.0 < leverage < 1.0 && 0.0 <= m < 1.0 && minBps < 10_000
    ensures var ceiling := MaxLeverageForDistance(minBps, Long, Finite(m));
      ceiling.Some? ==> leverage <= ceiling.value
  {
    LongDenominatorBelowOne(m, minBps);
    Reciprocal(leverage);
    CeilingIsReciprocal(Long, leverage, m, minBps);
  }

  /** Every estimate that exists is at least the reconciled distance. */
  lemma ReconcileIsMinimum(side: Side, reference: Number, venue: Option<Number>, model: Option<real>, tolerance: int)
    requires ReconcileLiquidation(side, reference, venue, model, tolerance).Estimate?
    ensures var r := ReconcileLiquidation(side, reference, venue, model, tolerance);
      var v := if venue.None? then None else LiquidationDistanceBps(side, reference, venue.value);
      var m := if model.None? then None else LiquidationDistanceBps(side, reference, Finite(model.value));
      && (v.Some? ==> r.distanceBps <= v.value)
      && (m.Some? ==> r.distanceBps <= m.value)
      && (v == Some(r.distanceBps) || m == Some(r.distanceBps))
  {
  }
}
