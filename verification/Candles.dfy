/**
 * Candle aggregation and the market summary (src/market/ohlcv.ts): loops over mutable candles, proved to build
 * what an order-free description says.
 */
module Candles {
  import opened Options
  import opened Basics
  import opened Rationals
  import opened Trades

  datatype Candle = Candle(
    start: int,
    end: int,
    open: Rational,
    high: Rational,
    low: Rational,
    close: Rational,
    baseVolume: int,
    quoteVolume: int,
    trades: int)

  datatype Error = BadInterval | BadTimestamp | BadPrice | BadVolume | BadLiquidity | BadDenominator
  datatype Result<T> = Ok(value: T) | Err(error: Error)

  predicate SafeInteger(x: real) {
    x == x.Floor as real && -MAX_SAFE_INTEGER <= x.Floor <= MAX_SAFE_INTEGER
  }

  function TradeError(t: Trade): Option<Error> {
    if !SafeInteger(t.timestamp) || t.timestamp < 0.0 then Some(BadTimestamp)
    else if !Valid(t.price) then Some(BadPrice)
    else if t.baseAmount < 0 || t.quoteAmount < 0 then Some(BadVolume)
    else None
  }

  /** The complaint about the earliest trade that draws one. */
  function FirstError(ts: seq<Trade>): Option<Error> {
    if ts == [] then None
    else
      var earlier := FirstError(ts[..|ts| - 1]);
      if earlier.Some? then earlier else TradeError(ts[|ts| - 1])
  }

  lemma {:induction false} FirstErrorStays(ts: seq<Trade>, n: nat)
    requires n <= |ts| && FirstError(ts[..n]).Some?
    ensures FirstError(ts) == FirstError(ts[..n])
    decreases |ts|
  {
    if n == |ts| {
      assert ts[..n] == ts;
    } else {
      assert ts[..|ts| - 1][..n] == ts[..n];
      FirstErrorStays(ts[..|ts| - 1], n);
    }
  }

  ghost predicate AllValid(ts: seq<Trade>) {
    forall i | 0 <= i < |ts| :: Valid(ts[i].price)
  }

  lemma {:induction false} NoErrorMeansGood(ts: seq<Trade>)
    requires FirstError(ts).None?
    ensures forall i | 0 <= i < |ts| :: TradeError(ts[i]).None?
    ensures AllValid(ts)
  {
    if ts != [] {
      NoErrorMeansGood(ts[..|ts| - 1]);
      assert forall i | 0 <= i < |ts| - 1 :: ts[i] == ts[..|ts| - 1][i];
    }
  }

  // ---- the description of a candle ---------------------------------------------------------------

  /** Where the interval holding a trade starts. */
  function Start(t: Trade, width: int): int
    requires width > 0
  {
    t.timestamp.Floor / width * width
  }

  /** The trades of one interval, in order. */
  function Bucket(ts: seq<Trade>, start: int, width: int): seq<Trade>
    requires width > 0
  {
    if ts == [] then []
    else
      Bucket(ts[..|ts| - 1], start, width) +
      (if Start(ts[|ts| - 1], width) == start then [ts[|ts| - 1]] else [])
  }

  datatype Quantity = Base | Quote | Count

  function Amount(q: Quantity, t: Trade): int {
    match q
    case Base => t.baseAmount
    case Quote => t.quoteAmount
    case Count => 1
  }

  function Total(q: Quantity, ts: seq<Trade>): int {
    if ts == [] then 0 else Total(q, ts[..|ts| - 1]) + Amount(q, ts[|ts| - 1])
  }

  /** The greatest price paid, in lowest terms. */
  ghost predicate IsHigh(p: Rational, ts: seq<Trade>)
    requires AllValid(ts)
  {
    && (exists i | 0 <= i < |ts| :: p == Canonical(ts[i].price))
    && (forall i | 0 <= i < |ts| :: Compare(ts[i].price, p) <= 0)
  }

  /** The least price paid, in lowest terms. */
  ghost predicate IsLow(p: Rational, ts: seq<Trade>)
    requires AllValid(ts)
  {
    && (exists i | 0 <= i < |ts| :: p == Canonical(ts[i].price))
    && (forall i | 0 <= i < |ts| :: Compare(p, ts[i].price) <= 0)
  }

  /** A candle's numbers, read off its trades with no accumulation. */
  ghost predicate Fits(c: Candle, bucket: seq<Trade>) {
    && bucket != [] && AllValid(bucket)
    && c.open == Canonical(bucket[0].price) && c.close == Canonical(bucket[|bucket| - 1].price)
    && IsHigh(c.high, bucket) && IsLow(c.low, bucket)
    && c.baseVolume == Total(Base, bucket) && c.quoteVolume == Total(Quote, bucket)
    && c.trades == Total(Count, bucket)
  }

  function Starts(out: seq<Candle>): set<int> {
    set c | c in out :: c.start
  }

  ghost predicate Increasing(out: seq<Candle>) {
    forall i, j | 0 <= i < j < |out| :: out[i].start < out[j].start
  }

  ghost predicate Covers(out: seq<Candle>, ts: seq<Trade>, width: int)
    requires width > 0
  {
    forall i | 0 <= i < |ts| :: Start(ts[i], width) in Starts(out)
  }

  ghost predicate FitsAll(out: seq<Candle>, ts: seq<Trade>, width: int)
    requires width > 0
  {
    forall k | 0 <= k < |out| ::
      Fits(out[k], Bucket(ts, out[k].start, width)) && out[k].end == out[k].start + width
  }

  /** One candle per non-empty interval, in order, each fitting its interval's trades. */
  ghost predicate Described(out: seq<Candle>, ts: seq<Trade>, width: int)
    requires width > 0
  {
    FitsAll(out, ts, width) && Increasing(out) && Covers(out, ts, width)
  }

  ghost predicate Aggregates(collate: Collation, input: seq<Trade>, interval: real, r: Result<seq<Candle>>) {
    if !SafeInteger(interval) || interval <= 0.0 then r == Err(BadInterval)
    else
      var ts := Sorted(collate, Dedup(input));
      if FirstError(ts).Some? then r == Err(FirstError(ts).value)
      else r.Ok? && Described(r.value, ts, interval.Floor)
  }

  // ---- one more trade ----------------------------------------------------------------------------

  lemma BucketAppend(ts: seq<Trade>, t: Trade, start: int, width: int)
    requires width > 0
    ensures Bucket(ts + [t], start, width) ==
      Bucket(ts, start, width) + (if Start(t, width) == start then [t] else [])
  {
    assert (ts + [t])[..|ts|] == ts;
  }

  lemma TotalAppend(q: Quantity, ts: seq<Trade>, t: Trade)
    ensures Total(q, ts + [t]) == Total(q, ts) + Amount(q, t)
  {
    assert (ts + [t])[..|ts|] == ts;
  }

  lemma {:induction false} BucketMembers(ts: seq<Trade>, start: int, width: int, t: Trade)
    requires width > 0
    ensures t in Bucket(ts, start, width) <==> t in ts && Start(t, width) == start
  {
    if ts != [] {
      BucketMembers(ts[..|ts| - 1], start, width, t);
      assert ts == ts[..|ts| - 1] + [ts[|ts| - 1]];
    }
  }

  function NewCandle(start: int, width: int, p: Rational): Candle {
    Candle(start, start + width, p, p, p, p, 0, 0, 0)
  }

  /** What the loop body does to the candle of a trade. */
  function Updated(c: Candle, t: Trade, p: Rational): Candle {
    c.(high := if Compare(p, c.high) > 0 then p else c.high,
       low := if Compare(p, c.low) < 0 then p else c.low,
       close := p,
       baseVolume := c.baseVolume + t.baseAmount,
       quoteVolume := c.quoteVolume + t.quoteAmount,
       trades := c.trades + 1)
  }

  /** A price's canonical form compares as the price does. */
  lemma CanonicalCompares(a: Rational, b: Rational)
    requires Valid(a) && Valid(b)
    ensures Valid(Canonical(a))
    ensures Compare(Canonical(a), b) <= 0 <==> Compare(a, b) <= 0
    ensures Compare(b, Canonical(a)) <= 0 <==> Compare(b, a) <= 0
  {
    CanonicalValid(a);
    var c := Canonical(a);
    assert Compare(c, a) == -Compare(a, c) && Compare(b, a) == -Compare(a, b) && Compare(b, c) == -Compare(c, b);
    if Compare(a, b) <= 0 {
      CompareTransitive(c, a, b);
    }
    if Compare(c, b) <= 0 {
      CompareTransitive(a, c, b);
    }
    if Compare(b, a) <= 0 {
      CompareTransitive(b, a, c);
    }
    if Compare(b, c) <= 0 {
      CompareTransitive(b, c, a);
    }
  }

  lemma FirstFits(t: Trade, start: int, width: int)
    requires Valid(t.price)
    ensures Fits(Updated(NewCandle(start, width, Canonical(t.price)), t, Canonical(t.price)), [t])
  {
    CanonicalValid(t.price);
    var c := Updated(NewCandle(start, width, Canonical(t.price)), t, Canonical(t.price));
    assert Compare(Canonical(t.price), Canonical(t.price)) == 0;
    assert c.high == c.low == Canonical([t][0].price);
    forall q ensures Total(q, [t]) == Amount(q, t) {
      TotalAppend(q, [], t);
      assert [] + [t] == [t];
    }
  }

  lemma HighMoves(h: Rational, bucket: seq<Trade>, t: Trade)
    requires AllValid(bucket) && Valid(t.price) && IsHigh(h, bucket)
    ensures IsHigh(if Compare(Canonical(t.price), h) > 0 then Canonical(t.price) else h, bucket + [t])
  {
    var i :| 0 <= i < |bucket| && h == Canonical(bucket[i].price);
    CanonicalValid(bucket[i].price);
    CanonicalValid(t.price);
    CanonicalCompares(t.price, h);
    var more, p := bucket + [t], Canonical(t.price);
    assert more[i] == bucket[i] && more[|bucket|] == t;
    if Compare(p, h) > 0 {
      assert Compare(h, p) < 0;
      forall k | 0 <= k < |bucket| ensures Compare(more[k].price, p) <= 0 {
        CompareTransitive(bucket[k].price, h, p);
      }
    }
  }

  lemma LowMoves(l: Rational, bucket: seq<Trade>, t: Trade)
    requires AllValid(bucket) && Valid(t.price) && IsLow(l, bucket)
    ensures IsLow(if Compare(Canonical(t.price), l) < 0 then Canonical(t.price) else l, bucket + [t])
  {
    var i :| 0 <= i < |bucket| && l == Canonical(bucket[i].price);
    CanonicalValid(bucket[i].price);
    CanonicalValid(t.price);
    CanonicalCompares(t.price, l);
    var more, p := bucket + [t], Canonical(t.price);
    assert more[i] == bucket[i] && more[|bucket|] == t;
    if Compare(p, l) < 0 {
      forall k | 0 <= k < |bucket| ensures Compare(p, more[k].price) <= 0 {
        CompareTransitive(p, l, bucket[k].price);
      }
    } else {
      assert Compare(l, p) <= 0;
    }
    assert Compare(p, t.price) == -Compare(t.price, p);
  }

  lemma NextFits(c: Candle, bucket: seq<Trade>, t: Trade)
    requires Fits(c, bucket) && Valid(t.price)
    ensures Fits(Updated(c, t, Canonical(t.price)), bucket + [t])
  {
    HighMoves(c.high, bucket, t);
    LowMoves(c.low, bucket, t);
    TotalAppend(Base, bucket, t);
    TotalAppend(Quote, bucket, t);
    TotalAppend(Count, bucket, t);
  }

  lemma EmptyBucket(ts: seq<Trade>, start: int, width: int)
    requires width > 0 && forall t | t in ts :: Start(t, width) != start
    ensures Bucket(ts, start, width) == []
  {
    var b := Bucket(ts, start, width);
    if b != [] {
      BucketMembers(ts, start, width, b[0]);
    }
  }

  lemma StartMonotone(a: Trade, b: Trade, width: int)
    requires width > 0 && a.timestamp <= b.timestamp
    ensures Start(a, width) <= Start(b, width)
  {
    var x, y := a.timestamp.Floor, b.timestamp.Floor;
    QuotientMonotone(x, y, width);
    if x / width < y / width {
      ScaleOrder(x / width, y / width, width);
    }
  }

  lemma QuotientMonotone(x: int, y: int, d: int)
    requires x <= y && d > 0
    ensures x / d <= y / d
  {
    var p, q := x / d, y / d;
    assert p * d <= x && y < q * d + d;
    assert (p - q) * d == p * d - q * d;
    if p > q {
      AtLeast(p - q, d);
    }
  }

  /** The list after one more trade: a candle opened, or the last one brought up to date. */
  function Extended(out: seq<Candle>, t: Trade, width: int): seq<Candle>
    requires width > 0 && Valid(t.price)
  {
    var p, start := Canonical(t.price), Start(t, width);
    if out == [] || out[|out| - 1].start != start then out + [Updated(NewCandle(start, width, p), t, p)]
    else out[..|out| - 1] + [Updated(out[|out| - 1], t, p)]
  }

  predicate EndsAt(out: seq<Candle>, ts: seq<Trade>, width: int)
    requires width > 0
  {
    if ts == [] then out == [] else out != [] && out[|out| - 1].start == Start(ts[|ts| - 1], width)
  }

  lemma OtherBucketsStay(out: seq<Candle>, ts: seq<Trade>, t: Trade, width: int, n: nat)
    requires width > 0 && n <= |out| && FitsAll(out, ts, width)
    requires forall k | 0 <= k < n :: out[k].start != Start(t, width)
    ensures FitsAll(out[..n], ts + [t], width)
  {
    forall k | 0 <= k < n
      ensures Bucket(ts + [t], out[k].start, width) == Bucket(ts, out[k].start, width)
    {
      BucketAppend(ts, t, out[k].start, width);
    }
  }

  lemma StartsAppend(out: seq<Candle>, c: Candle)
    ensures Starts(out + [c]) == Starts(out) + {c.start}
  {
    assert c in out + [c];
    forall d | d in out ensures d.start in Starts(out + [c]) {
      assert d in out + [c];
    }
  }

  /** A described list and one later candle. */
  lemma Assembled(front: seq<Candle>, c: Candle, ts: seq<Trade>, width: int)
    requires width > 0 && FitsAll(front, ts, width) && Increasing(front)
    requires Fits(c, Bucket(ts, c.start, width)) && c.end == c.start + width
    requires forall k | 0 <= k < |front| :: front[k].start < c.start
    ensures FitsAll(front + [c], ts, width) && Increasing(front + [c])
  {
  }

  lemma NoTradeYet(out: seq<Candle>, ts: seq<Trade>, start: int, width: int)
    requires width > 0 && Covers(out, ts, width) && forall k | 0 <= k < |out| :: out[k].start < start
    ensures Bucket(ts, start, width) == []
  {
    forall u | u in ts ensures Start(u, width) != start {
      var i :| 0 <= i < |ts| && ts[i] == u;
      assert Start(ts[i], width) in Starts(out);
    }
    EmptyBucket(ts, start, width);
  }

  lemma CoversMore(out: seq<Candle>, next: seq<Candle>, ts: seq<Trade>, t: Trade, width: int)
    requires width > 0 && Covers(out, ts, width)
    requires Starts(out) <= Starts(next) && Start(t, width) in Starts(next)
    ensures Covers(next, ts + [t], width)
  {
  }

  lemma OpensFit(out: seq<Candle>, ts: seq<Trade>, t: Trade, width: int)
    requires width > 0 && Valid(t.price) && Covers(out, ts, width)
    requires forall k | 0 <= k < |out| :: out[k].start < Start(t, width)
    ensures Fits(Updated(NewCandle(Start(t, width), width, Canonical(t.price)), t, Canonical(t.price)),
                 Bucket(ts + [t], Start(t, width), width))
  {
    NoTradeYet(out, ts, Start(t, width), width);
    BucketAppend(ts, t, Start(t, width), width);
    FirstFits(t, Start(t, width), width);
    assert [] + [t] == [t];
  }

  lemma OpensCandle(out: seq<Candle>, ts: seq<Trade>, t: Trade, width: int)
    requires width > 0 && Valid(t.price) && Described(out, ts, width)
    requires out != [] ==> out[|out| - 1].start < Start(t, width)
    ensures Described(Extended(out, t, width), ts + [t], width)
  {
    var c := Updated(NewCandle(Start(t, width), width, Canonical(t.price)), t, Canonical(t.price));
    OpensFit(out, ts, t, width);
    assert FitsAll(out, ts + [t], width) by {
      OtherBucketsStay(out, ts, t, width, |out|);
      assert out[..|out|] == out;
    }
    Assembled(out, c, ts + [t], width);
    StartsAppend(out, c);
    CoversMore(out, out + [c], ts, t, width);
  }

  lemma UpdatesFit(out: seq<Candle>, ts: seq<Trade>, t: Trade, width: int)
    requires width > 0 && Valid(t.price) && FitsAll(out, ts, width)
    requires out != [] && out[|out| - 1].start == Start(t, width)
    ensures Fits(Updated(out[|out| - 1], t, Canonical(t.price)), Bucket(ts + [t], Start(t, width), width))
  {
    BucketAppend(ts, t, Start(t, width), width);
    NextFits(out[|out| - 1], Bucket(ts, Start(t, width), width), t);
  }

  lemma StartsUpdated(out: seq<Candle>, c: Candle)
    requires out != [] && out[|out| - 1].start == c.start
    ensures Starts(out[..|out| - 1] + [c]) == Starts(out) && c.start in Starts(out)
  {
    var front, last := out[..|out| - 1], out[|out| - 1];
    assert out == front + [last];
    StartsAppend(front, last);
    StartsAppend(front, c);
  }

  lemma UpdatesCandle(out: seq<Candle>, ts: seq<Trade>, t: Trade, width: int)
    requires width > 0 && Valid(t.price) && Described(out, ts, width)
    requires out != [] && out[|out| - 1].start == Start(t, width)
    ensures Described(Extended(out, t, width), ts + [t], width)
  {
    var n := |out| - 1;
    var front, c := out[..n], Updated(out[n], t, Canonical(t.price));
    UpdatesFit(out, ts, t, width);
    OtherBucketsStay(out, ts, t, width, n);
    Assembled(front, c, ts + [t], width);
    StartsUpdated(out, c);
    CoversMore(out, front + [c], ts, t, width);
  }

  lemma ExtendedEnds(out: seq<Candle>, ts: seq<Trade>, t: Trade, width: int)
    requires width > 0 && Valid(t.price)
    ensures EndsAt(Extended(out, t, width), ts + [t], width)
  {
    assert (ts + [t])[|ts|] == t;
  }

  lemma ExtendedDescribed(out: seq<Candle>, ts: seq<Trade>, t: Trade, width: int)
    requires width > 0 && Valid(t.price) && Described(out, ts, width) && EndsAt(out, ts, width)
    requires ts != [] ==> ts[|ts| - 1].timestamp <= t.timestamp
    ensures Described(Extended(out, t, width), ts + [t], width)
  {
    if ts == [] {
      OpensCandle(out, ts, t, width);
    } else {
      StartMonotone(ts[|ts| - 1], t, width);
      if out[|out| - 1].start == Start(t, width) {
        UpdatesCandle(out, ts, t, width);
      } else {
        OpensCandle(out, ts, t, width);
      }
    }
  }

  /** The loop body: open a candle where the interval changed, then bring the last one up to date. */
  method AddTrade(out: seq<Candle>, t: Trade, width: int) returns (next: seq<Candle>)
    requires width > 0 && Valid(t.price)
    ensures next == Extended(out, t, width)
  {
    var start, p := Start(t, width), Canonical(t.price);
    next := out;
    if out == [] || out[|out| - 1].start != start {
      next := next + [NewCandle(start, width, p)];
    }
    var c := next[|next| - 1];
    if Compare(p, c.high) > 0 {
      c := c.(high := p);
    }
    if Compare(p, c.low) < 0 {
      c := c.(low := p);
    }
    c := c.(close := p, baseVolume := c.baseVolume + t.baseAmount, quoteVolume := c.quoteVolume + t.quoteAmount,
            trades := c.trades + 1);
    next := next[..|next| - 1] + [c];
  }

  /** The state of the loop after some trades. */
  ghost predicate Built(out: seq<Candle>, ts: seq<Trade>, n: nat, width: int)
    requires width > 0 && n <= |ts|
  {
    FirstError(ts[..n]).None? && Described(out, ts[..n], width) && EndsAt(out, ts[..n], width)
  }

  lemma BuiltNext(out: seq<Candle>, ts: seq<Trade>, n: nat, width: int)
    requires width > 0 && n < |ts| && TimeSorted(ts)
    requires Built(out, ts, n, width) && TradeError(ts[n]).None?
    ensures Built(Extended(out, ts[n], width), ts, n + 1, width)
  {
    assert ts[..n + 1] == ts[..n] + [ts[n]];
    assert ts[..n + 1][..n] == ts[..n];
    ExtendedDescribed(out, ts[..n], ts[n], width);
    ExtendedEnds(out, ts[..n], ts[n], width);
  }

  /** The loop over trades in order. */
  method BuildCandles(ts: seq<Trade>, width: int) returns (r: Result<seq<Candle>>)
    requires width > 0 && TimeSorted(ts)
    ensures if FirstError(ts).Some? then r == Err(FirstError(ts).value) else r.Ok? && Described(r.value, ts, width)
  {
    var out: seq<Candle> := [];
    for n := 0 to |ts|
      invariant Built(out, ts, n, width)
    {
      if TradeError(ts[n]).Some? {
        assert ts[..n + 1][..n] == ts[..n];
        FirstErrorStays(ts, n + 1);
        return Err(TradeError(ts[n]).value);
      }
      BuiltNext(out, ts, n, width);
      out := AddTrade(out, ts[n], width);
    }
    assert ts[..|ts|] == ts;
    return Ok(out);
  }

  /** Candles of the trades, or the complaint about the first bad one in sorted order. */
  method AggregateCandles(collate: Collation, input: seq<Trade>, interval: real) returns (r: Result<seq<Candle>>)
    ensures Aggregates(collate, input, interval, r)
  {
    if !SafeInteger(interval) || interval <= 0.0 {
      return Err(BadInterval);
    }
    var kept := FilterDuplicates(input);
    SortedFacts(collate, kept);
    r := BuildCandles(Sorted(collate, kept), interval.Floor);
  }
}
