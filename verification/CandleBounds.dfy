/**
 * What the candles and the summary report, in plain numbers: prices as cross-multiplied fractions, intervals as
 * bounds on timestamps, volumes as sums over the trades, first and last by time, slot and sequence.
 */
module CandleBounds {
  import opened Options
  import opened Rationals
  import opened Trades
  import opened Candles
  import opened CandleTheorems
  import opened MarketSummary

  /** `a` is at most `b`, as fractions with positive denominators. */
  predicate AtMost(a: Rational, b: Rational) {
    a.denominator > 0 && b.denominator > 0 && a.numerator * b.denominator <= b.numerator * a.denominator
  }

  predicate SamePrice(a: Rational, b: Rational) {
    a.denominator > 0 && b.denominator > 0 && a.numerator * b.denominator == b.numerator * a.denominator
  }

  lemma CanonicalIsSamePrice(p: Rational)
    requires Valid(p)
    ensures Valid(Canonical(p)) && SamePrice(Canonical(p), p)
  {
    var g := Factor(p.numerator, p.denominator);
    var c := Canonical(p);
    Associate(c.numerator, g, c.denominator);
    Associate(c.numerator, c.denominator, g);
  }

  lemma CompareIsAtMost(a: Rational, b: Rational)
    requires Valid(a) && Valid(b)
    ensures Compare(a, b) <= 0 <==> AtMost(a, b)
  {
  }

  // ---- the interval ------------------------------------------------------------------------------

  /** The trade happened in the candle's interval. */
  predicate Within(t: Trade, c: Candle) {
    c.start as real <= t.timestamp < c.end as real
  }

  lemma StartMeans(t: Trade, start: int, width: int)
    requires width > 0 && start % width == 0 && t.timestamp == t.timestamp.Floor as real
    ensures Start(t, width) == start <==> start as real <= t.timestamp < (start + width) as real
  {
    var x := t.timestamp.Floor;
    var q, r := x / width, start / width;
    assert x == width * q + x % width && start == width * r;
    assert width * q - width * r == width * (q - r);
    if start <= x < start + width {
      Between(width, q - r, x % width);
    }
  }

  /** A multiple plus a remainder between nought and the divisor is the multiple nought. */
  lemma Between(d: int, k: int, rest: int)
    requires d > 0 && 0 <= rest < d && 0 <= d * k + rest < d
    ensures k == 0
  {
    if k > 0 {
      Rationals.AtLeast(k, d);
    }
  }

  // ---- the order ---------------------------------------------------------------------------------

  /** Earlier by time, then slot, then sequence. */
  predicate Earlier(a: Trade, b: Trade) {
    || a.timestamp < b.timestamp
    || (a.timestamp == b.timestamp && (a.slot < b.slot || (a.slot == b.slot && a.sequence < b.sequence)))
  }

  ghost predicate InOrder(ts: seq<Trade>) {
    forall i, j | 0 <= i < j < |ts| :: !Earlier(ts[j], ts[i])
  }

  lemma {:induction false} InsertInOrder(collate: Collation, sorted: seq<Trade>, t: Trade)
    requires InOrder(sorted)
    ensures InOrder(Insert(collate, sorted, t))
  {
    if sorted != [] {
      var n := |sorted| - 1;
      if Comparator(collate, sorted[n], t) <= 0 {
        assert !Earlier(t, sorted[n]);
      } else {
        InsertInOrder(collate, sorted[..n], t);
        InsertMembers(collate, sorted[..n], t);
        var front := Insert(collate, sorted[..n], t);
        forall i | 0 <= i < |front| ensures !Earlier(sorted[n], front[i]) {
          assert front[i] in sorted[..n] || front[i] == t;
        }
      }
    }
  }

  lemma {:induction false} SortedInOrder(collate: Collation, ts: seq<Trade>)
    ensures InOrder(Sorted(collate, ts))
  {
    if ts != [] {
      SortedInOrder(collate, ts[..|ts| - 1]);
      InsertInOrder(collate, Sorted(collate, ts[..|ts| - 1]), ts[|ts| - 1]);
    }
  }

  lemma {:induction false} BucketInOrder(ts: seq<Trade>, start: int, width: int)
    requires width > 0 && InOrder(ts)
    ensures InOrder(Bucket(ts, start, width))
  {
    if ts != [] {
      var n := |ts| - 1;
      BucketInOrder(ts[..n], start, width);
      var front := Bucket(ts[..n], start, width);
      forall i | 0 <= i < |front| ensures !Earlier(ts[n], front[i]) {
        BucketMembers(ts[..n], start, width, front[i]);
      }
    }
  }

  // ---- what a candle reports ---------------------------------------------------------------------

  /** The trades that count: the first of each id. */
  function Counted(input: seq<Trade>, c: Candle): set<Trade> {
    set t | t in Dedup(input) && Within(t, c)
  }

  lemma BucketIsCounted(input: seq<Trade>, ts: seq<Trade>, c: Candle, width: int)
    requires width > 0 && c.start % width == 0 && c.end == c.start + width
    requires FirstError(ts).None? && forall t :: t in ts <==> t in Dedup(input)
    ensures forall t :: t in Bucket(ts, c.start, width) <==> t in Counted(input, c)
  {
    NoErrorMeansGood(ts);
    forall t ensures t in Bucket(ts, c.start, width) <==> t in Counted(input, c) {
      BucketMembers(ts, c.start, width, t);
      if t in ts {
        var i :| 0 <= i < |ts| && ts[i] == t;
        assert TradeError(ts[i]).None?;
        StartMeans(t, c.start, width);
      }
    }
  }

  lemma CandleSetup(collate: Collation, input: seq<Trade>, interval: real, out: seq<Candle>, k: nat)
    requires Aggregates(collate, input, interval, Ok(out)) && k < |out|
    ensures interval == interval.Floor as real && interval.Floor > 0
    ensures var ts := Sorted(collate, Dedup(input)); var width := interval.Floor; var bucket := Bucket(ts, out[k].start, width);
      && Described(out, ts, width) && FirstError(ts).None? && Fits(out[k], bucket) && InOrder(bucket)
      && out[k].end == out[k].start + width && out[k].start % width == 0
      && (forall t :: t in bucket <==> t in Counted(input, out[k]))
  {
    var ts, width := Sorted(collate, Dedup(input)), interval.Floor;
    CandlesAreSound(out, ts, width, k);
    SortedInOrder(collate, Dedup(input));
    BucketInOrder(ts, out[k].start, width);
    SortedFacts(collate, Dedup(input));
    BucketIsCounted(input, ts, out[k], width);
  }

  /** The trades of a candle's interval, in order. */
  lemma CandleBucket(collate: Collation, input: seq<Trade>, interval: real, out: seq<Candle>, k: nat) returns (bucket: seq<Trade>)
    requires Aggregates(collate, input, interval, Ok(out)) && k < |out|
    ensures Fits(out[k], bucket) && InOrder(bucket) && forall t :: t in bucket <==> t in Counted(input, out[k])
  {
    CandleSetup(collate, input, interval, out, k);
    bucket := Bucket(Sorted(collate, Dedup(input)), out[k].start, interval.Floor);
  }

  /**
   * The range of a candle. Its high and low are prices that were paid in its interval, and no trade of the interval
   * paid more than its high or less than its low, as fractions.
   */
  lemma CandleRange(collate: Collation, input: seq<Trade>, interval: real, out: seq<Candle>, k: nat)
    requires Aggregates(collate, input, interval, Ok(out)) && k < |out|
    ensures forall t | t in Counted(input, out[k]) :: AtMost(out[k].low, t.price) && AtMost(t.price, out[k].high)
    ensures exists t :: t in Counted(input, out[k]) && SamePrice(out[k].high, t.price)
    ensures exists t :: t in Counted(input, out[k]) && SamePrice(out[k].low, t.price)
  {
    var bucket := CandleBucket(collate, input, interval, out, k);
    var h :| 0 <= h < |bucket| && out[k].high == Canonical(bucket[h].price);
    var l :| 0 <= l < |bucket| && out[k].low == Canonical(bucket[l].price);
    CanonicalIsSamePrice(bucket[h].price);
    CanonicalIsSamePrice(bucket[l].price);
    assert bucket[h] in Counted(input, out[k]) && bucket[l] in Counted(input, out[k]);
    forall t | t in Counted(input, out[k]) ensures AtMost(out[k].low, t.price) && AtMost(t.price, out[k].high) {
      var i :| 0 <= i < |bucket| && bucket[i] == t;
      CompareIsAtMost(bucket[i].price, out[k].high);
      CompareIsAtMost(out[k].low, bucket[i].price);
    }
  }

  ghost predicate IsFirst(t: Trade, ts: set<Trade>) {
    t in ts && forall u | u in ts :: !Earlier(u, t)
  }

  ghost predicate IsLast(t: Trade, ts: set<Trade>) {
    t in ts && forall u | u in ts :: !Earlier(t, u)
  }

  lemma EndsOfBucket(bucket: seq<Trade>, ts: set<Trade>)
    requires bucket != [] && InOrder(bucket) && forall t :: t in bucket <==> t in ts
    ensures IsFirst(bucket[0], ts) && IsLast(bucket[|bucket| - 1], ts)
  {
    forall u | u in ts ensures !Earlier(u, bucket[0]) && !Earlier(bucket[|bucket| - 1], u) {
      var i :| 0 <= i < |bucket| && bucket[i] == u;
    }
  }

  /**
   * The ends of a candle. Its open is the price of a trade no other of the interval is earlier than, by time, slot
   * and sequence; its close that of a trade no other is later than.
   */
  lemma CandleEnds(collate: Collation, input: seq<Trade>, interval: real, out: seq<Candle>, k: nat)
    returns (first: Trade, last: Trade)
    requires Aggregates(collate, input, interval, Ok(out)) && k < |out|
    ensures IsFirst(first, Counted(input, out[k])) && SamePrice(out[k].open, first.price)
    ensures IsLast(last, Counted(input, out[k])) && SamePrice(out[k].close, last.price)
  {
    var bucket := CandleBucket(collate, input, interval, out, k);
    EndsOfBucket(bucket, Counted(input, out[k]));
    CanonicalIsSamePrice(bucket[0].price);
    CanonicalIsSamePrice(bucket[|bucket| - 1].price);
    first, last := bucket[0], bucket[|bucket| - 1];
  }

  // ---- volumes -----------------------------------------------------------------------------------

  datatype Figures = Figures(base: int, quote: int, count: int)

  function Plus(f: Figures, t: Trade): Figures {
    Figures(f.base + t.baseAmount, f.quote + t.quoteAmount, f.count + 1)
  }

  /** The figures of the trades in a candle's interval. */
  function FiguresIn(ts: seq<Trade>, c: Candle): Figures {
    if ts == [] then Figures(0, 0, 0)
    else
      var rest := FiguresIn(ts[..|ts| - 1], c);
      if Within(ts[|ts| - 1], c) then Plus(rest, ts[|ts| - 1]) else rest
  }

  function FiguresOf(ts: seq<Trade>): Figures {
    if ts == [] then Figures(0, 0, 0) else Plus(FiguresOf(ts[..|ts| - 1]), ts[|ts| - 1])
  }

  lemma {:induction false} TotalsAreFigures(ts: seq<Trade>)
    ensures FiguresOf(ts) == Figures(Total(Base, ts), Total(Quote, ts), Total(Count, ts))
  {
    if ts != [] {
      TotalsAreFigures(ts[..|ts| - 1]);
    }
  }

  lemma FiguresAppend(ts: seq<Trade>, t: Trade, c: Candle)
    ensures FiguresIn(ts + [t], c) == if Within(t, c) then Plus(FiguresIn(ts, c), t) else FiguresIn(ts, c)
    ensures FiguresOf(ts + [t]) == Plus(FiguresOf(ts), t)
  {
    assert (ts + [t])[..|ts|] == ts;
  }

  lemma {:induction false} BucketFigures(ts: seq<Trade>, c: Candle, width: int)
    requires width > 0 && c.start % width == 0 && c.end == c.start + width && FirstError(ts).None?
    ensures FiguresOf(Bucket(ts, c.start, width)) == FiguresIn(ts, c)
  {
    if ts != [] {
      var n := |ts| - 1;
      BucketFigures(ts[..n], c, width);
      assert TradeError(ts[n]).None?;
      StartMeans(ts[n], c.start, width);
      assert Bucket(ts[..n], c.start, width) + [] == Bucket(ts[..n], c.start, width);
      FiguresAppend(Bucket(ts[..n], c.start, width), ts[n], c);
    }
  }

  lemma {:induction false} FiguresInsert(collate: Collation, sorted: seq<Trade>, t: Trade, c: Candle)
    ensures FiguresIn(Insert(collate, sorted, t), c) == FiguresIn(sorted + [t], c)
  {
    FiguresAppend(sorted, t, c);
    if sorted == [] {
      assert [] + [t] == [t];
    } else {
      var n := |sorted| - 1;
      FiguresInsert(collate, sorted[..n], t, c);
      FiguresAppend(sorted[..n], t, c);
      FiguresAppend(Insert(collate, sorted[..n], t), sorted[n], c);
    }
  }

  lemma {:induction false} FiguresSorted(collate: Collation, ts: seq<Trade>, c: Candle)
    ensures FiguresIn(Sorted(collate, ts), c) == FiguresIn(ts, c)
  {
    if ts != [] {
      var n := |ts| - 1;
      FiguresSorted(collate, ts[..n], c);
      FiguresInsert(collate, Sorted(collate, ts[..n]), ts[n], c);
      FiguresAppend(Sorted(collate, ts[..n]), ts[n], c);
    }
  }

  /** A candle's volumes and count are the sums over the trades of its interval, each id once. */
  lemma CandleVolumes(collate: Collation, input: seq<Trade>, interval: real, out: seq<Candle>, k: nat)
    requires Aggregates(collate, input, interval, Ok(out)) && k < |out|
    ensures Figures(out[k].baseVolume, out[k].quoteVolume, out[k].trades) == FiguresIn(Dedup(input), out[k])
  {
    CandleSetup(collate, input, interval, out, k);
    var ts, width := Sorted(collate, Dedup(input)), interval.Floor;
    TotalsAreFigures(Bucket(ts, out[k].start, width));
    BucketFigures(ts, out[k], width);
    FiguresSorted(collate, Dedup(input), out[k]);
  }

  /** Every trade that counts falls in exactly one candle. */
  lemma EveryTradeInOneCandle(collate: Collation, input: seq<Trade>, interval: real, out: seq<Candle>, t: Trade)
    requires Aggregates(collate, input, interval, Ok(out)) && t in Dedup(input)
    ensures exists k :: 0 <= k < |out| && Within(t, out[k])
    ensures forall j, k | 0 <= j < |out| && 0 <= k < |out| && Within(t, out[j]) && Within(t, out[k]) :: j == k
  {
    var ts, width := Sorted(collate, Dedup(input)), interval.Floor;
    SortedFacts(collate, Dedup(input));
    var k := ExtremeReached(out, ts, width, t);
    CandleSetup(collate, input, interval, out, k);
    forall i, j | 0 <= i < |out| && 0 <= j < |out| && Within(t, out[i]) && Within(t, out[j]) ensures i == j {
      CandleSetup(collate, input, interval, out, i);
      CandleSetup(collate, input, interval, out, j);
      StartMeansFor(t, ts, out[i].start, width);
      StartMeansFor(t, ts, out[j].start, width);
    }
  }

  lemma StartMeansFor(t: Trade, ts: seq<Trade>, start: int, width: int)
    requires width > 0 && start % width == 0 && t in ts && FirstError(ts).None?
    requires start as real <= t.timestamp < (start + width) as real
    ensures Start(t, width) == start
  {
    NoErrorMeansGood(ts);
    var i :| 0 <= i < |ts| && ts[i] == t;
    assert TradeError(ts[i]).None?;
    StartMeans(t, start, width);
  }

  // ---- what is refused ---------------------------------------------------------------------------

  /** A trade no candle is refused for: a whole second from nought on, a positive price, volumes not negative. */
  predicate Good(t: Trade) {
    && t.timestamp == t.timestamp.Floor as real && 0.0 <= t.timestamp <= 9_007_199_254_740_991.0
    && t.price.numerator > 0 && t.price.denominator > 0 && t.baseAmount >= 0 && t.quoteAmount >= 0
  }

  lemma {:induction false} NoErrorIffGood(ts: seq<Trade>)
    ensures FirstError(ts).None? <==> forall t | t in ts :: Good(t)
  {
    if ts != [] {
      var front, last := ts[..|ts| - 1], ts[|ts| - 1];
      NoErrorIffGood(front);
      assert ts == front + [last];
      assert TradeError(last).None? <==> Good(last);
    }
  }

  /** Candles exist exactly for a positive whole interval and trades that are all good, each id's first. */
  lemma CandlesExistIff(collate: Collation, input: seq<Trade>, interval: real, r: Result<seq<Candle>>)
    requires Aggregates(collate, input, interval, r)
    ensures r.Ok? <==>
      && interval == interval.Floor as real && 0.0 < interval <= 9_007_199_254_740_991.0
      && forall t | t in Dedup(input) :: Good(t)
  {
    NoErrorIffGood(Sorted(collate, Dedup(input)));
    SortedFacts(collate, Dedup(input));
  }

  // ---- the summary -------------------------------------------------------------------------------

  /** The fraction is the quotient of two integers. */
  predicate IsQuotient(r: Rational, n: int, d: int) {
    r.denominator > 0 && r.numerator * d == n * r.denominator
  }

  lemma ReducedIsQuotient(n: int, d: int)
    requires d > 0
    ensures IsQuotient(Reduce(n, d), n, d)
  {
    var g := Factor(n, d);
    var r := Reduce(n, d);
    Associate(r.numerator, g, r.denominator);
    Associate(r.numerator, r.denominator, g);
  }

  /**
   * What the summary reports: the sums over the trades, each id once; a high and a low that were paid, and that no
   * trade went beyond; the average price as quote over base, and the quote volume over the liquidity.
   */
  lemma SummaryMeans(trades: seq<Trade>, liquidity: int, a: Analytics)
    requires Summarizes(Ok(a), Dedup(trades), liquidity)
    ensures liquidity >= 0 && Figures(a.baseVolume, a.quoteVolume, a.tradeCount) == FiguresOf(Dedup(trades))
    ensures a.vwap.Some? <==> a.baseVolume > 0
    ensures a.vwap.Some? ==> IsQuotient(a.vwap.value, a.quoteVolume, a.baseVolume)
    ensures a.quotePerLiquidity.Some? <==> liquidity > 0
    ensures a.quotePerLiquidity.Some? ==> IsQuotient(a.quotePerLiquidity.value, a.quoteVolume, liquidity)
    ensures a.low.Some? <==> Dedup(trades) != []
    ensures a.high.Some? <==> Dedup(trades) != []
    ensures a.low.Some? && a.high.Some? ==>
      && (forall t | t in Dedup(trades) :: AtMost(a.low.value, t.price) && AtMost(t.price, a.high.value))
      && (exists t :: t in Dedup(trades) && SamePrice(a.low.value, t.price))
      && (exists t :: t in Dedup(trades) && SamePrice(a.high.value, t.price))
  {
    var ts := Dedup(trades);
    TotalsAreFigures(ts);
    if a.baseVolume > 0 {
      ReducedIsQuotient(a.quoteVolume, a.baseVolume);
    }
    if liquidity > 0 {
      ReducedIsQuotient(a.quoteVolume, liquidity);
    }
    if ts != [] {
      SummaryRange(ts, a.low.value, a.high.value);
    }
  }

  lemma SummaryRange(ts: seq<Trade>, low: Rational, high: Rational)
    requires AllValid(ts) && IsLow(low, ts) && IsHigh(high, ts)
    ensures forall t | t in ts :: AtMost(low, t.price) && AtMost(t.price, high)
    ensures exists t :: t in ts && SamePrice(low, t.price)
    ensures exists t :: t in ts && SamePrice(high, t.price)
  {
    var h :| 0 <= h < |ts| && high == Canonical(ts[h].price);
    var l :| 0 <= l < |ts| && low == Canonical(ts[l].price);
    CanonicalIsSamePrice(ts[h].price);
    CanonicalIsSamePrice(ts[l].price);
    assert ts[h] in ts && ts[l] in ts;
    forall t | t in ts ensures AtMost(low, t.price) && AtMost(t.price, high) {
      var i :| 0 <= i < |ts| && ts[i] == t;
      CompareIsAtMost(low, ts[i].price);
      CompareIsAtMost(ts[i].price, high);
    }
  }
}
