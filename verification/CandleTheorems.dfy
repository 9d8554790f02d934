/**
 * What candles promise: no order of arrival and no way of writing a price changes them, they are sound, and
 * together they agree with the market summary.
 */
module CandleTheorems {
  import opened Rationals
  import opened Trades
  import opened Candles

  // ---- the description leaves no choice ----------------------------------------------------------

  lemma HighUnique(p: Rational, q: Rational, ts: seq<Trade>)
    requires AllValid(ts) && IsHigh(p, ts) && IsHigh(q, ts)
    ensures p == q
  {
    var i :| 0 <= i < |ts| && p == Canonical(ts[i].price);
    var j :| 0 <= j < |ts| && q == Canonical(ts[j].price);
    BothBoundsAgree(ts[i].price, ts[j].price);
  }

  lemma LowUnique(p: Rational, q: Rational, ts: seq<Trade>)
    requires AllValid(ts) && IsLow(p, ts) && IsLow(q, ts)
    ensures p == q
  {
    var i :| 0 <= i < |ts| && p == Canonical(ts[i].price);
    var j :| 0 <= j < |ts| && q == Canonical(ts[j].price);
    BothBoundsAgree(ts[j].price, ts[i].price);
  }

  /** Prices that bound each other reduce to one pair. */
  lemma BothBoundsAgree(a: Rational, b: Rational)
    requires Valid(a) && Valid(b)
    ensures Compare(a, Canonical(b)) <= 0 && Compare(b, Canonical(a)) <= 0 ==> Canonical(a) == Canonical(b)
    ensures Compare(Canonical(b), a) <= 0 && Compare(Canonical(a), b) <= 0 ==> Canonical(a) == Canonical(b)
  {
    CanonicalCompares(a, b);
    CanonicalCompares(b, a);
    assert Compare(b, a) == -Compare(a, b);
    SameValue(a, b);
  }

  lemma FitsUnique(c: Candle, d: Candle, bucket: seq<Trade>)
    requires Fits(c, bucket) && Fits(d, bucket) && c.start == d.start && c.end == d.end
    ensures c == d
  {
    HighUnique(c.high, d.high, bucket);
    LowUnique(c.low, d.low, bucket);
  }

  lemma StartsAreTradeStarts(out: seq<Candle>, ts: seq<Trade>, width: int, start: int)
    requires width > 0 && Described(out, ts, width)
    ensures start in Starts(out) <==> exists t | t in ts :: Start(t, width) == start
  {
    if start in Starts(out) {
      var k :| 0 <= k < |out| && out[k].start == start;
      var bucket := Bucket(ts, start, width);
      assert Fits(out[k], bucket);
      BucketMembers(ts, start, width, bucket[0]);
    }
    if t :| t in ts && Start(t, width) == start {
      var i :| 0 <= i < |ts| && ts[i] == t;
    }
  }

  lemma LastRemoved(out: seq<Candle>)
    requires Increasing(out) && out != []
    ensures var n := |out| - 1;
      && Starts(out) == Starts(out[..n]) + {out[n].start}
      && forall s | s in Starts(out[..n]) :: s < out[n].start
  {
    var n := |out| - 1;
    assert out == out[..n] + [out[n]];
    StartsAppend(out[..n], out[n]);
    forall s | s in Starts(out[..n]) ensures s < out[n].start {
      var k :| 0 <= k < n && out[..n][k].start == s;
    }
  }

  ghost predicate StrictlyUp(a: seq<int>) {
    forall i, j | 0 <= i < j < |a| :: a[i] < a[j]
  }

  ghost predicate Within(a: seq<int>, b: seq<int>) {
    forall i | 0 <= i < |a| :: a[i] in b
  }

  lemma WithinFront(a: seq<int>, b: seq<int>)
    requires StrictlyUp(a) && StrictlyUp(b) && Within(a, b) && a != [] && b != [] && a[|a| - 1] == b[|b| - 1]
    ensures Within(a[..|a| - 1], b[..|b| - 1])
  {
    forall i | 0 <= i < |a| - 1 ensures a[i] in b[..|b| - 1] {
      var j :| 0 <= j < |b| && b[j] == a[i];
      assert b[..|b| - 1][j] == a[i];
    }
  }

  lemma BothEmpty(a: seq<int>, b: seq<int>)
    requires Within(a, b) && Within(b, a)
    ensures a == [] <==> b == []
  {
    assert (a != [] ==> a[0] in b) && (b != [] ==> b[0] in a);
  }

  lemma LastBounds(a: seq<int>, b: seq<int>)
    requires StrictlyUp(b) && Within(a, b) && a != [] && b != []
    ensures a[|a| - 1] <= b[|b| - 1]
  {
    var j :| 0 <= j < |b| && b[j] == a[|a| - 1];
  }

  /** A strictly increasing list is determined by its members. */
  lemma {:induction false} StrictlyUpUnique(a: seq<int>, b: seq<int>)
    requires StrictlyUp(a) && StrictlyUp(b) && Within(a, b) && Within(b, a)
    ensures a == b
    decreases |a|
  {
    BothEmpty(a, b);
    if a != [] {
      var m, n := |a| - 1, |b| - 1;
      LastBounds(a, b);
      LastBounds(b, a);
      WithinFront(a, b);
      WithinFront(b, a);
      StrictlyUpUnique(a[..m], b[..n]);
      assert a == a[..m] + [a[m]] && b == b[..n] + [b[n]];
    }
  }

  function StartList(out: seq<Candle>): seq<int> {
    seq(|out|, i requires 0 <= i < |out| => out[i].start)
  }

  lemma StartsWithin(a: seq<Candle>, b: seq<Candle>)
    requires Starts(a) <= Starts(b)
    ensures Within(StartList(a), StartList(b))
  {
    forall i | 0 <= i < |a| ensures StartList(a)[i] in StartList(b) {
      assert a[i].start in Starts(b);
      var k :| 0 <= k < |b| && b[k].start == a[i].start;
      assert StartList(b)[k] == a[i].start;
    }
  }

  lemma IncreasingUnique(a: seq<Candle>, b: seq<Candle>)
    requires Increasing(a) && Increasing(b) && Starts(a) == Starts(b)
    ensures |a| == |b| && forall k | 0 <= k < |a| :: a[k].start == b[k].start
  {
    StartsWithin(a, b);
    StartsWithin(b, a);
    StrictlyUpUnique(StartList(a), StartList(b));
    assert |StartList(a)| == |a| && |StartList(b)| == |b|;
    forall k | 0 <= k < |a| ensures a[k].start == b[k].start {
      assert StartList(a)[k] == a[k].start && StartList(b)[k] == b[k].start;
    }
  }

  /** Only one list of candles fits a list of trades. */
  lemma DescribedUnique(a: seq<Candle>, b: seq<Candle>, ts: seq<Trade>, width: int)
    requires width > 0 && Described(a, ts, width) && Described(b, ts, width)
    ensures a == b
  {
    forall s ensures s in Starts(a) <==> s in Starts(b) {
      StartsAreTradeStarts(a, ts, width, s);
      StartsAreTradeStarts(b, ts, width, s);
    }
    IncreasingUnique(a, b);
    forall k | 0 <= k < |a| ensures a[k] == b[k] {
      FitsUnique(a[k], b[k], Bucket(ts, a[k].start, width));
    }
  }

  lemma AggregatesUnique(collate: Collation, input: seq<Trade>, interval: real, a: Result<seq<Candle>>, b: Result<seq<Candle>>)
    requires Aggregates(collate, input, interval, a) && Aggregates(collate, input, interval, b)
    ensures a == b
  {
    if SafeInteger(interval) && interval > 0.0 {
      var ts := Sorted(collate, Dedup(input));
      if FirstError(ts).None? {
        DescribedUnique(a.value, b.value, ts, interval.Floor);
      }
    }
  }

  // ---- the way a price is written ----------------------------------------------------------------

  lemma {:induction false} BucketNormal(ts: seq<Trade>, start: int, width: int)
    requires width > 0
    ensures Bucket(NormalAll(ts), start, width) == NormalAll(Bucket(ts, start, width))
  {
    if ts != [] {
      var n := |ts| - 1;
      assert NormalAll(ts)[..n] == NormalAll(ts[..n]);
      BucketNormal(ts[..n], start, width);
      NormalAppend(Bucket(ts[..n], start, width), ts[n]);
    }
  }

  lemma {:induction false} TotalNormal(q: Quantity, ts: seq<Trade>)
    ensures Total(q, NormalAll(ts)) == Total(q, ts)
  {
    if ts != [] {
      assert NormalAll(ts)[..|ts| - 1] == NormalAll(ts[..|ts| - 1]);
      TotalNormal(q, ts[..|ts| - 1]);
    }
  }

  lemma {:induction false} FirstErrorNormal(ts: seq<Trade>)
    ensures FirstError(NormalAll(ts)) == FirstError(ts)
  {
    if ts != [] {
      var last := ts[|ts| - 1];
      assert NormalAll(ts)[..|ts| - 1] == NormalAll(ts[..|ts| - 1]);
      FirstErrorNormal(ts[..|ts| - 1]);
      if Valid(last.price) {
        CanonicalValid(last.price);
      }
    }
  }

  lemma NormalPrices(ts: seq<Trade>)
    requires AllValid(ts)
    ensures AllValid(NormalAll(ts))
    ensures forall i | 0 <= i < |ts| ::
      Canonical(NormalAll(ts)[i].price) == Canonical(ts[i].price) == NormalAll(ts)[i].price
  {
    forall i | 0 <= i < |ts|
      ensures Valid(NormalAll(ts)[i].price)
      ensures Canonical(NormalAll(ts)[i].price) == Canonical(ts[i].price) == NormalAll(ts)[i].price
    {
      CanonicalValid(ts[i].price);
    }
  }

  lemma FitsNormal(c: Candle, bucket: seq<Trade>)
    requires Fits(c, bucket)
    ensures Fits(c, NormalAll(bucket))
  {
    var all := NormalAll(bucket);
    NormalPrices(bucket);
    forall q ensures Total(q, all) == Total(q, bucket) {
      TotalNormal(q, bucket);
    }
    var h :| 0 <= h < |bucket| && c.high == Canonical(bucket[h].price);
    var l :| 0 <= l < |bucket| && c.low == Canonical(bucket[l].price);
    assert c.high == Canonical(all[h].price) && c.low == Canonical(all[l].price);
    CanonicalValid(bucket[h].price);
    CanonicalValid(bucket[l].price);
    forall i | 0 <= i < |bucket| ensures Compare(all[i].price, c.high) <= 0 && Compare(c.low, all[i].price) <= 0 {
      CanonicalCompares(bucket[i].price, c.high);
      CanonicalCompares(bucket[i].price, c.low);
    }
  }

  /** Reducing the prices first changes nothing. */
  lemma DescribedNormal(out: seq<Candle>, ts: seq<Trade>, width: int)
    requires width > 0 && Described(out, ts, width)
    ensures Described(out, NormalAll(ts), width)
  {
    forall k | 0 <= k < |out| ensures Fits(out[k], Bucket(NormalAll(ts), out[k].start, width)) {
      BucketNormal(ts, out[k].start, width);
      FitsNormal(out[k], Bucket(ts, out[k].start, width));
    }
    forall i | 0 <= i < |ts| ensures Start(NormalAll(ts)[i], width) in Starts(out) {
      assert Start(ts[i], width) in Starts(out);
    }
  }

  lemma AggregatesNormal(collate: Collation, input: seq<Trade>, interval: real, r: Result<seq<Candle>>)
    requires Aggregates(collate, input, interval, r)
    ensures Aggregates(collate, NormalAll(input), interval, r)
  {
    if SafeInteger(interval) && interval > 0.0 {
      var ts := Sorted(collate, Dedup(input));
      DedupNormal(input);
      SortedNormal(collate, Dedup(input));
      FirstErrorNormal(ts);
      if FirstError(ts).None? {
        DescribedNormal(r.value, ts, interval.Floor);
      }
    }
  }

  /**
   * Order independence: two inputs holding the same trades, up to the way prices are written, aggregate to the
   * same candles or the same error, however the trades are ordered or repeated.
   */
  lemma SameTradesSameCandles(collate: Collation, a: seq<Trade>, b: seq<Trade>, interval: real,
                              ra: Result<seq<Candle>>, rb: Result<seq<Candle>>)
    requires TotalOnIds(collate) && Consistent(NormalAll(a)) && SameTrades(NormalAll(a), NormalAll(b))
    requires Aggregates(collate, a, interval, ra) && Aggregates(collate, b, interval, rb)
    ensures ra == rb
  {
    AggregatesNormal(collate, a, interval, ra);
    AggregatesNormal(collate, b, interval, rb);
    OrderOfArrivalIsLost(collate, NormalAll(a), NormalAll(b));
    assert Aggregates(collate, NormalAll(a), interval, rb);
    AggregatesUnique(collate, NormalAll(a), interval, ra, rb);
  }

  lemma NormalMembers(a: seq<Trade>, b: seq<Trade>)
    requires multiset(a) == multiset(b)
    ensures SameTrades(NormalAll(a), NormalAll(b))
  {
    forall t ensures t in NormalAll(a) <==> t in NormalAll(b) {
      if t in NormalAll(a) {
        var i :| 0 <= i < |a| && Normal(a[i]) == t;
        assert a[i] in multiset(b);
        var j :| 0 <= j < |b| && b[j] == a[i];
        assert NormalAll(b)[j] == t;
      }
      if t in NormalAll(b) {
        var i :| 0 <= i < |b| && Normal(b[i]) == t;
        assert b[i] in multiset(a);
        var j :| 0 <= j < |a| && a[j] == b[i];
        assert NormalAll(a)[j] == t;
      }
    }
  }

  lemma DistinctIsConsistent(a: seq<Trade>)
    requires DistinctIds(a)
    ensures Consistent(NormalAll(a))
  {
    forall t, u | t in NormalAll(a) && u in NormalAll(a) && t.id == u.id ensures t == u {
      var i :| 0 <= i < |a| && Normal(a[i]) == t;
      var j :| 0 <= j < |a| && Normal(a[j]) == u;
    }
  }

  /** Any permutation of trades with distinct ids aggregates alike. */
  lemma PermutationSameCandles(collate: Collation, a: seq<Trade>, b: seq<Trade>, interval: real,
                               ra: Result<seq<Candle>>, rb: Result<seq<Candle>>)
    requires TotalOnIds(collate) && DistinctIds(a) && multiset(a) == multiset(b)
    requires Aggregates(collate, a, interval, ra) && Aggregates(collate, b, interval, rb)
    ensures ra == rb
  {
    NormalMembers(a, b);
    DistinctIsConsistent(a);
    SameTradesSameCandles(collate, a, b, interval, ra, rb);
  }

  // ---- soundness ---------------------------------------------------------------------------------

  /** Every candle is aligned to its interval and holds its open and close between its low and its high. */
  lemma CandlesAreSound(out: seq<Candle>, ts: seq<Trade>, width: int, k: nat)
    requires width > 0 && Described(out, ts, width) && k < |out|
    ensures out[k].start % width == 0 && out[k].end == out[k].start + width
    ensures k > 0 ==> out[k - 1].end <= out[k].start
    ensures var c := out[k];
      && Valid(c.open) && Valid(c.close) && Valid(c.low) && Valid(c.high)
      && Compare(c.low, c.open) <= 0 && Compare(c.open, c.high) <= 0
      && Compare(c.low, c.close) <= 0 && Compare(c.close, c.high) <= 0
  {
    StartIsMultiple(out, ts, width, k);
    if k > 0 {
      StartIsMultiple(out, ts, width, k - 1);
      MultiplesApart(out[k - 1].start, out[k].start, width);
    }
    var bucket := Bucket(ts, out[k].start, width);
    PriceInRange(out[k], bucket, 0);
    PriceInRange(out[k], bucket, |bucket| - 1);
  }

  lemma PriceInRange(c: Candle, bucket: seq<Trade>, i: nat)
    requires Fits(c, bucket) && i < |bucket|
    ensures Valid(Canonical(bucket[i].price)) && Valid(c.low) && Valid(c.high)
    ensures Compare(c.low, Canonical(bucket[i].price)) <= 0 && Compare(Canonical(bucket[i].price), c.high) <= 0
  {
    var h :| 0 <= h < |bucket| && c.high == Canonical(bucket[h].price);
    var l :| 0 <= l < |bucket| && c.low == Canonical(bucket[l].price);
    CanonicalValid(bucket[h].price);
    CanonicalValid(bucket[l].price);
    CanonicalCompares(bucket[i].price, c.high);
    CanonicalCompares(bucket[i].price, c.low);
  }

  lemma StartIsMultiple(out: seq<Candle>, ts: seq<Trade>, width: int, k: nat)
    requires width > 0 && Described(out, ts, width) && k < |out|
    ensures out[k].start % width == 0
  {
    assert out[k].start in Starts(out);
    StartsAreTradeStarts(out, ts, width, out[k].start);
    var t :| t in ts && Start(t, width) == out[k].start;
    QuotientIs(out[k].start, width, t.timestamp.Floor / width, 0);
  }

  lemma MultiplesApart(a: int, b: int, d: int)
    requires d > 0 && a % d == 0 && b % d == 0 && a < b
    ensures a + d <= b
  {
    var p, q := a / d, b / d;
    assert a == p * d && b == q * d;
    QuotientMonotone(a, b, d);
    assert (q - p) * d == q * d - p * d;
    if p < q {
      AtLeast(q - p, d);
    }
  }

  // ---- where order does matter -------------------------------------------------------------------

  function Dealt(id: string, price: int): Trade {
    Trade(id, 0.0, Rational(price, 1), 1, 1, 0, 0)
  }

  lemma OnePriceReduced(n: int)
    requires n > 0
    ensures Canonical(Rational(n, 1)) == Rational(n, 1)
  {
    SamePairReduced(n);
  }

  lemma SamePairReduced(n: int)
    requires n > 0
    ensures Reduce(n, 1) == Rational(n, 1)
  {
    assert n % 1 == 0;
    assert Gcd(n, 1) == Gcd(1, 0) == 1;
  }

  lemma BothInBucket(a: Trade, b: Trade)
    requires Start(a, 1) == Start(b, 1) == 0
    ensures Bucket([a, b], 0, 1) == [a, b]
  {
    BucketAppend([], a, 0, 1);
    BucketAppend([a], b, 0, 1);
    assert [] + [a] == [a] && [a] + [b] == [a, b];
  }

  lemma OpenIsFirst(out: seq<Candle>, a: Trade, b: Trade) returns (k: nat)
    requires Described(out, [a, b], 1) && Start(a, 1) == Start(b, 1) == 0
    ensures k < |out| && out[k].start == 0 && Valid(a.price) && out[k].open == Canonical(a.price)
  {
    BothInBucket(a, b);
    assert Start([a, b][0], 1) in Starts(out);
    k :| 0 <= k < |out| && out[k].start == 0;
    assert Fits(out[k], [a, b]);
    assert Valid([a, b][0].price);
  }

  /**
   * A collation that calls two different ids equal makes the candle depend on the order of arrival: the total
   * order on ids is needed.
   */
  lemma TiedIdsKeepArrivalOrder(collate: Collation, x: string, y: string, ra: seq<Candle>, rb: seq<Candle>)
    requires x != y && collate(x, y) == 0 && collate(y, x) == 0
    requires Aggregates(collate, [Dealt(x, 1), Dealt(y, 2)], 1.0, Ok(ra))
    requires Aggregates(collate, [Dealt(y, 2), Dealt(x, 1)], 1.0, Ok(rb))
    ensures ra != rb
  {
    var a, b := Dealt(x, 1), Dealt(y, 2);
    TwoTiedTrades(collate, a, b);
    TwoTiedTrades(collate, b, a);
    var i := OpenIsFirst(ra, a, b);
    var j := OpenIsFirst(rb, b, a);
    OnePriceReduced(1);
    OnePriceReduced(2);
  }

  lemma TwoTiedTrades(collate: Collation, a: Trade, b: Trade)
    requires a.id != b.id && Comparator(collate, a, b) == 0
    ensures Sorted(collate, Dedup([a, b])) == [a, b]
  {
    assert [a, b][..1] == [a] && [a][..0] == [];
    assert Dedup([a]) == [a];
    assert Dedup([a, b]) == [a, b];
    assert Sorted(collate, [a]) == [a];
  }

  /** Of two different trades under one id the earlier counts: consistent ids are needed too. */
  lemma FirstDuplicateWins(a: Trade, b: Trade)
    requires a.id == b.id
    ensures Dedup([a, b]) == [a] && Dedup([b, a]) == [b]
  {
    assert [a, b][..1] == [a] && [b, a][..1] == [b] && [a][..0] == [] && [b][..0] == [];
    assert Dedup([a]) == [a] && Dedup([b]) == [b];
    assert a in [a] && b in [b];
  }
}
