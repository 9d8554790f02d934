/**
 * The market summary (src/market/ohlcv.ts) and its agreement with the candles of the same trades.
 */
module MarketSummary {
  import opened Options
  import opened Rationals
  import opened Trades
  import opened Candles
  import opened CandleTheorems

  datatype Analytics = Analytics(
    tradeCount: int,
    baseVolume: int,
    quoteVolume: int,
    vwap: Option<Rational>,
    low: Option<Rational>,
    high: Option<Rational>,
    activeLiquidity: int,
    quotePerLiquidity: Option<Rational>)

  /** A ratio that is absent where its denominator is zero. */
  function Ratio(n: int, d: int): Option<Rational> {
    if d <= 0 then None else Some(Reduce(n, d))
  }

  /** The summary of trades without duplicates. */
  ghost predicate Summarizes(r: Result<Analytics>, ts: seq<Trade>, liquidity: int) {
    if liquidity < 0 then r == Err(BadLiquidity)
    else if !AllValid(ts) then r == Err(BadPrice)
    else if Total(Base, ts) < 0 then r == Err(BadDenominator)
    else
      && r.Ok?
      && r.value.tradeCount == Total(Count, ts)
      && r.value.baseVolume == Total(Base, ts)
      && r.value.quoteVolume == Total(Quote, ts)
      && r.value.vwap == Ratio(Total(Quote, ts), Total(Base, ts))
      && r.value.activeLiquidity == liquidity
      && r.value.quotePerLiquidity == Ratio(Total(Quote, ts), liquidity)
      && RangeIs(r.value.low, r.value.high, ts)
  }

  ghost predicate RangeIs(low: Option<Rational>, high: Option<Rational>, ts: seq<Trade>)
    requires AllValid(ts)
  {
    if ts == [] then low == None && high == None
    else low.Some? && IsLow(low.value, ts) && high.Some? && IsHigh(high.value, ts)
  }

  // ---- the loop ----------------------------------------------------------------------------------

  function NewLow(low: Option<Rational>, t: Trade): Option<Rational>
    requires Valid(t.price)
  {
    if low.None? || Compare(t.price, low.value) < 0 then Some(Canonical(t.price)) else low
  }

  function NewHigh(high: Option<Rational>, t: Trade): Option<Rational>
    requires Valid(t.price)
  {
    if high.None? || Compare(t.price, high.value) > 0 then Some(Canonical(t.price)) else high
  }

  lemma RangeMoves(low: Option<Rational>, high: Option<Rational>, ts: seq<Trade>, t: Trade)
    requires AllValid(ts) && Valid(t.price) && RangeIs(low, high, ts)
    ensures RangeIs(NewLow(low, t), NewHigh(high, t), ts + [t])
  {
    CanonicalValid(t.price);
    if ts == [] {
      assert ([] + [t])[0] == t;
      assert Compare(Canonical(t.price), t.price) == -Compare(t.price, Canonical(t.price));
    } else {
      RangeValid(low, high, ts);
      CanonicalCompares(t.price, low.value);
      CanonicalCompares(t.price, high.value);
      assert Compare(t.price, low.value) == -Compare(low.value, t.price);
      assert Compare(Canonical(t.price), low.value) == -Compare(low.value, Canonical(t.price));
      HighMoves(high.value, ts, t);
      LowMoves(low.value, ts, t);
    }
  }

  lemma RangeValid(low: Option<Rational>, high: Option<Rational>, ts: seq<Trade>)
    requires AllValid(ts) && RangeIs(low, high, ts) && ts != []
    ensures Valid(low.value) && Valid(high.value)
  {
    var h :| 0 <= h < |ts| && high.value == Canonical(ts[h].price);
    var l :| 0 <= l < |ts| && low.value == Canonical(ts[l].price);
    CanonicalValid(ts[h].price);
    CanonicalValid(ts[l].price);
  }

  datatype Sums = Sums(base: int, quote: int, count: int, low: Option<Rational>, high: Option<Rational>)

  ghost predicate SumsOf(s: Sums, ts: seq<Trade>) {
    && AllValid(ts)
    && s.base == Total(Base, ts) && s.quote == Total(Quote, ts) && s.count == Total(Count, ts)
    && RangeIs(s.low, s.high, ts)
  }

  /** One more trade in the running sums. */
  function Summed(s: Sums, t: Trade): Sums
    requires Valid(t.price)
  {
    Sums(s.base + t.baseAmount, s.quote + t.quoteAmount, s.count + 1, NewLow(s.low, t), NewHigh(s.high, t))
  }

  lemma SumsMove(s: Sums, ts: seq<Trade>, t: Trade)
    requires SumsOf(s, ts) && Valid(t.price)
    ensures SumsOf(Summed(s, t), ts + [t])
  {
    TotalAppend(Base, ts, t);
    TotalAppend(Quote, ts, t);
    TotalAppend(Count, ts, t);
    RangeMoves(s.low, s.high, ts, t);
  }

  lemma DedupNext(trades: seq<Trade>, n: nat)
    requires n < |trades|
    ensures var kept, t := Dedup(trades[..n]), trades[n];
      Dedup(trades[..n + 1]) == (if t.id in Ids(kept) then kept else kept + [t]) &&
      Ids(Dedup(trades[..n + 1])) == Ids(kept) + {t.id}
  {
    assert trades[..n + 1][..n] == trades[..n];
  }

  /** The loop: one pass over the trades, skipping ids already seen. */
  method Accumulate(trades: seq<Trade>) returns (ok: bool, sums: Sums)
    ensures ok <==> AllValid(Dedup(trades))
    ensures ok ==> SumsOf(sums, Dedup(trades))
  {
    sums := Sums(0, 0, 0, None, None);
    var seen: set<string> := {};
    for n := 0 to |trades|
      invariant seen == Ids(Dedup(trades[..n]))
      invariant SumsOf(sums, Dedup(trades[..n]))
    {
      var t := trades[n];
      DedupNext(trades, n);
      if t.id !in seen {
        seen := seen + {t.id};
        if !Valid(t.price) {
          StillInvalid(trades, n);
          return false, sums;
        }
        SumsMove(sums, Dedup(trades[..n]), t);
        sums := Summed(sums, t);
      }
    }
    assert trades[..|trades|] == trades;
    ok := true;
  }

  lemma {:induction false} DedupPrefix(ts: seq<Trade>, n: nat)
    requires n <= |ts|
    ensures Dedup(ts[..n]) <= Dedup(ts)
    decreases |ts|
  {
    if n == |ts| {
      assert ts[..n] == ts;
    } else {
      assert ts[..|ts| - 1][..n] == ts[..n];
      DedupPrefix(ts[..|ts| - 1], n);
    }
  }

  lemma StillInvalid(trades: seq<Trade>, n: nat)
    requires n < |trades| && !Valid(trades[n].price) && trades[n].id !in Ids(Dedup(trades[..n]))
    ensures !AllValid(Dedup(trades))
  {
    assert trades[..n + 1][..n] == trades[..n];
    var kept := Dedup(trades[..n + 1]);
    assert kept[|kept| - 1] == trades[n];
    DedupPrefix(trades, n + 1);
    assert Dedup(trades)[|kept| - 1] == trades[n];
  }

  method MarketAnalytics(trades: seq<Trade>, activeLiquidity: int) returns (r: Result<Analytics>)
    ensures Summarizes(r, Dedup(trades), activeLiquidity)
  {
    if activeLiquidity < 0 {
      return Err(BadLiquidity);
    }
    var ok, sums := Accumulate(trades);
    if !ok {
      return Err(BadPrice);
    }
    var vwap: Option<Rational>, perLiquidity: Option<Rational> := None, None;
    if sums.base != 0 {
      vwap := MakeRational(sums.quote, sums.base);
      if vwap.None? {
        return Err(BadDenominator);
      }
    }
    if activeLiquidity != 0 {
      perLiquidity := MakeRational(sums.quote, activeLiquidity);
    }
    return Ok(Analytics(sums.count, sums.base, sums.quote, vwap, sums.low, sums.high, activeLiquidity, perLiquidity));
  }

  // ---- agreement with the candles ----------------------------------------------------------------

  function CandleAmount(q: Quantity, c: Candle): int {
    match q
    case Base => c.baseVolume
    case Quote => c.quoteVolume
    case Count => c.trades
  }

  function CandleTotal(q: Quantity, out: seq<Candle>): int {
    if out == [] then 0 else CandleTotal(q, out[..|out| - 1]) + CandleAmount(q, out[|out| - 1])
  }

  /** The same sum over the candles' intervals, read from the trades. */
  function BucketTotal(q: Quantity, out: seq<Candle>, ts: seq<Trade>, width: int): int
    requires width > 0
  {
    if out == [] then 0
    else BucketTotal(q, out[..|out| - 1], ts, width) + Total(q, Bucket(ts, out[|out| - 1].start, width))
  }

  lemma FitsAmount(q: Quantity, c: Candle, bucket: seq<Trade>)
    requires Fits(c, bucket)
    ensures CandleAmount(q, c) == Total(q, bucket)
  {
  }

  lemma {:induction false} CandleTotalIsBucketTotal(q: Quantity, out: seq<Candle>, ts: seq<Trade>, width: int)
    requires width > 0
    requires forall k | 0 <= k < |out| :: CandleAmount(q, out[k]) == Total(q, Bucket(ts, out[k].start, width))
    ensures CandleTotal(q, out) == BucketTotal(q, out, ts, width)
  {
    if out != [] {
      CandleTotalIsBucketTotal(q, out[..|out| - 1], ts, width);
    }
  }

  lemma {:induction false} NothingTotalled(q: Quantity, out: seq<Candle>, width: int)
    requires width > 0
    ensures BucketTotal(q, out, [], width) == 0
  {
    if out != [] {
      NothingTotalled(q, out[..|out| - 1], width);
    }
  }

  /** One more trade counts in exactly one interval. */
  lemma {:induction false} CountedOnce(q: Quantity, out: seq<Candle>, ts: seq<Trade>, t: Trade, width: int)
    requires width > 0 && Increasing(out)
    ensures BucketTotal(q, out, ts + [t], width) ==
      BucketTotal(q, out, ts, width) + (if Start(t, width) in Starts(out) then Amount(q, t) else 0)
  {
    if out != [] {
      var n := |out| - 1;
      var start := out[n].start;
      CountedOnce(q, out[..n], ts, t, width);
      BucketAppend(ts, t, start, width);
      TotalAppend(q, Bucket(ts, start, width), t);
      LastRemoved(out);
      assert Bucket(ts, start, width) + [] == Bucket(ts, start, width);
    }
  }

  lemma {:induction false} EveryTradeCounted(q: Quantity, out: seq<Candle>, ts: seq<Trade>, width: int)
    requires width > 0 && Increasing(out) && Covers(out, ts, width)
    ensures BucketTotal(q, out, ts, width) == Total(q, ts)
  {
    if ts == [] {
      NothingTotalled(q, out, width);
    } else {
      var n := |ts| - 1;
      assert ts == ts[..n] + [ts[n]];
      assert forall i | 0 <= i < n :: Start(ts[..n][i], width) == Start(ts[i], width);
      EveryTradeCounted(q, out, ts[..n], width);
      CountedOnce(q, out, ts[..n], ts[n], width);
    }
  }

  lemma {:induction false} TotalInsert(q: Quantity, collate: Collation, sorted: seq<Trade>, t: Trade)
    ensures Total(q, Insert(collate, sorted, t)) == Total(q, sorted) + Amount(q, t)
  {
    if sorted == [] {
      TotalAppend(q, [], t);
      assert [] + [t] == [t];
    } else {
      var n := |sorted| - 1;
      TotalAppend(q, sorted, t);
      TotalInsert(q, collate, sorted[..n], t);
      TotalAppend(q, Insert(collate, sorted[..n], t), sorted[n]);
    }
  }

  lemma {:induction false} TotalSorted(q: Quantity, collate: Collation, ts: seq<Trade>)
    ensures Total(q, Sorted(collate, ts)) == Total(q, ts)
  {
    if ts != [] {
      TotalSorted(q, collate, ts[..|ts| - 1]);
      TotalInsert(q, collate, Sorted(collate, ts[..|ts| - 1]), ts[|ts| - 1]);
    }
  }

  /** The candles' volumes and counts add up to the totals over the trades, each id once. */
  lemma TotalsAgree(q: Quantity, collate: Collation, input: seq<Trade>, out: seq<Candle>, width: int)
    requires width > 0 && Described(out, Sorted(collate, Dedup(input)), width)
    ensures CandleTotal(q, out) == Total(q, Dedup(input))
  {
    var ts := Sorted(collate, Dedup(input));
    forall k | 0 <= k < |out| ensures CandleAmount(q, out[k]) == Total(q, Bucket(ts, out[k].start, width)) {
      FitsAmount(q, out[k], Bucket(ts, out[k].start, width));
    }
    CandleTotalIsBucketTotal(q, out, ts, width);
    EveryTradeCounted(q, out, ts, width);
    TotalSorted(q, collate, Dedup(input));
  }

  lemma ValidAmong(a: seq<Trade>, b: seq<Trade>)
    requires AllValid(a) && forall t | t in b :: t in a
    ensures AllValid(b)
  {
    forall i | 0 <= i < |b| ensures Valid(b[i].price) {
      assert b[i] in a;
    }
  }

  lemma CandleHighInRange(c: Candle, bucket: seq<Trade>, ts: seq<Trade>, high: Rational)
    requires Fits(c, bucket) && AllValid(ts) && IsHigh(high, ts) && forall t | t in bucket :: t in ts
    ensures Compare(c.high, high) <= 0
  {
    var h :| 0 <= h < |bucket| && c.high == Canonical(bucket[h].price);
    var m :| 0 <= m < |ts| && high == Canonical(ts[m].price);
    CanonicalValid(ts[m].price);
    assert bucket[h] in ts;
    CanonicalCompares(bucket[h].price, high);
  }

  lemma CandleLowInRange(c: Candle, bucket: seq<Trade>, ts: seq<Trade>, low: Rational)
    requires Fits(c, bucket) && AllValid(ts) && IsLow(low, ts) && forall t | t in bucket :: t in ts
    ensures Compare(low, c.low) <= 0
  {
    var l :| 0 <= l < |bucket| && c.low == Canonical(bucket[l].price);
    var m :| 0 <= m < |ts| && low == Canonical(ts[m].price);
    CanonicalValid(ts[m].price);
    assert bucket[l] in ts;
    CanonicalCompares(bucket[l].price, low);
  }

  /** Some candle reaches each extreme. */
  lemma ExtremeReached(out: seq<Candle>, ts: seq<Trade>, width: int, t: Trade) returns (k: nat)
    requires width > 0 && Described(out, ts, width) && t in ts
    ensures k < |out| && t in Bucket(ts, out[k].start, width)
  {
    var i :| 0 <= i < |ts| && ts[i] == t;
    assert Start(ts[i], width) in Starts(out);
    k :| 0 <= k < |out| && out[k].start == Start(t, width);
    BucketMembers(ts, out[k].start, width, t);
  }

  lemma BucketWithin(ts: seq<Trade>, start: int, width: int)
    requires width > 0
    ensures forall t | t in Bucket(ts, start, width) :: t in ts
  {
    forall t | t in Bucket(ts, start, width) ensures t in ts {
      BucketMembers(ts, start, width, t);
    }
  }

  lemma RangeBounds(out: seq<Candle>, ts: seq<Trade>, width: int, low: Rational, high: Rational, k: nat)
    requires width > 0 && FitsAll(out, ts, width) && AllValid(ts) && IsLow(low, ts) && IsHigh(high, ts) && k < |out|
    ensures Compare(out[k].high, high) <= 0 && Compare(low, out[k].low) <= 0
  {
    var bucket := Bucket(ts, out[k].start, width);
    assert Fits(out[k], bucket);
    BucketWithin(ts, out[k].start, width);
    CandleHighInRange(out[k], bucket, ts, high);
    CandleLowInRange(out[k], bucket, ts, low);
  }

  lemma SameHigh(c: Candle, bucket: seq<Trade>, high: Rational, t: Trade)
    requires Fits(c, bucket) && t in bucket && Valid(t.price) && high == Canonical(t.price)
    requires Compare(c.high, high) <= 0
    ensures c.high == high
  {
    var h :| 0 <= h < |bucket| && c.high == Canonical(bucket[h].price);
    CanonicalValid(t.price);
    CanonicalCompares(bucket[h].price, high);
    BothBoundsAgree(bucket[h].price, t.price);
  }

  lemma SameLow(c: Candle, bucket: seq<Trade>, low: Rational, t: Trade)
    requires Fits(c, bucket) && t in bucket && Valid(t.price) && low == Canonical(t.price)
    requires Compare(low, c.low) <= 0
    ensures c.low == low
  {
    var l :| 0 <= l < |bucket| && c.low == Canonical(bucket[l].price);
    CanonicalValid(t.price);
    CanonicalCompares(bucket[l].price, low);
    BothBoundsAgree(t.price, bucket[l].price);
  }

  lemma HighAgrees(out: seq<Candle>, ts: seq<Trade>, width: int, low: Rational, high: Rational) returns (k: nat)
    requires width > 0 && Described(out, ts, width) && AllValid(ts) && IsLow(low, ts) && IsHigh(high, ts)
    ensures k < |out| && out[k].high == high
  {
    var m :| 0 <= m < |ts| && high == Canonical(ts[m].price);
    k := ExtremeReached(out, ts, width, ts[m]);
    RangeBounds(out, ts, width, low, high, k);
    SameHigh(out[k], Bucket(ts, out[k].start, width), high, ts[m]);
  }

  lemma LowAgrees(out: seq<Candle>, ts: seq<Trade>, width: int, low: Rational, high: Rational) returns (k: nat)
    requires width > 0 && Described(out, ts, width) && AllValid(ts) && IsLow(low, ts) && IsHigh(high, ts)
    ensures k < |out| && out[k].low == low
  {
    var m :| 0 <= m < |ts| && low == Canonical(ts[m].price);
    k := ExtremeReached(out, ts, width, ts[m]);
    RangeBounds(out, ts, width, low, high, k);
    SameLow(out[k], Bucket(ts, out[k].start, width), low, ts[m]);
  }

  lemma NoCandlesIffNoTrades(out: seq<Candle>, ts: seq<Trade>, width: int)
    requires width > 0 && Described(out, ts, width)
    ensures out == [] <==> ts == []
  {
    if ts != [] {
      assert Start(ts[0], width) in Starts(out);
    }
    if out != [] {
      var bucket := Bucket(ts, out[0].start, width);
      assert Fits(out[0], bucket);
      BucketMembers(ts, out[0].start, width, bucket[0]);
    }
  }

  lemma RangeSameTrades(low: Option<Rational>, high: Option<Rational>, a: seq<Trade>, b: seq<Trade>)
    requires AllValid(a) && AllValid(b) && SameTrades(a, b) && RangeIs(low, high, a)
    ensures RangeIs(low, high, b)
  {
    assert (a != [] ==> a[0] in b) && (b != [] ==> b[0] in a);
    if a != [] {
      var h :| 0 <= h < |a| && high.value == Canonical(a[h].price);
      var l :| 0 <= l < |a| && low.value == Canonical(a[l].price);
      assert a[h] in b && a[l] in b;
      forall i | 0 <= i < |b| ensures Compare(b[i].price, high.value) <= 0 && Compare(low.value, b[i].price) <= 0 {
        assert b[i] in a;
      }
    }
  }

  /**
   * Where the candles of some trades exist, for any interval, the summary of the same trades is defined for any
   * liquidity that is not negative, and agrees: volumes and counts add up, and the summary's high and low are
   * those of the highest and lowest candle.
   */
  lemma CandlesAgreeWithSummary(collate: Collation, input: seq<Trade>, interval: real, liquidity: int,
                                out: seq<Candle>, r: Result<Analytics>)
    requires Aggregates(collate, input, interval, Ok(out)) && liquidity >= 0
    requires Summarizes(r, Dedup(input), liquidity)
    ensures r.Ok?
    ensures CandleTotal(Base, out) == r.value.baseVolume
    ensures CandleTotal(Quote, out) == r.value.quoteVolume
    ensures CandleTotal(Count, out) == r.value.tradeCount
    ensures out == [] <==> r.value.high.None?
    ensures out == [] <==> r.value.low.None?
    ensures out != [] ==>
      && (exists k | 0 <= k < |out| :: out[k].high == r.value.high.value)
      && (exists k | 0 <= k < |out| :: out[k].low == r.value.low.value)
      && forall k | 0 <= k < |out| ::
           Compare(out[k].high, r.value.high.value) <= 0 && Compare(r.value.low.value, out[k].low) <= 0
  {
    var ts, kept, width := Sorted(collate, Dedup(input)), Dedup(input), interval.Floor;
    NoErrorMeansGood(ts);
    SortedFacts(collate, kept);
    ValidAmong(ts, kept);
    TotalsAgree(Base, collate, input, out, width);
    TotalsAgree(Quote, collate, input, out, width);
    TotalsAgree(Count, collate, input, out, width);
    VolumeNotNegative(ts);
    TotalSorted(Base, collate, kept);
    RangeSameTrades(r.value.low, r.value.high, kept, ts);
    NoCandlesIffNoTrades(out, ts, width);
    if ts != [] {
      var low, high := r.value.low.value, r.value.high.value;
      var h := HighAgrees(out, ts, width, low, high);
      var l := LowAgrees(out, ts, width, low, high);
      forall k | 0 <= k < |out| ensures Compare(out[k].high, high) <= 0 && Compare(low, out[k].low) <= 0 {
        RangeBounds(out, ts, width, low, high, k);
      }
    }
  }

  lemma {:induction false} VolumeNotNegative(ts: seq<Trade>)
    requires FirstError(ts).None?
    ensures Total(Base, ts) >= 0
  {
    if ts != [] {
      VolumeNotNegative(ts[..|ts| - 1]);
    }
  }
}
