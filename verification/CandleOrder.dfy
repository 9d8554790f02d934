/**
 * When the order of arrival can show in the candles: exactly where the locale calls two different ids equal, and
 * where two different trades share an id.
 */
module CandleOrder {
  import opened Rationals
  import opened Trades
  import opened Candles
  import opened CandleTheorems

  // ---- every input aggregates to something -------------------------------------------------------

  lemma {:induction false} CandlesExist(ts: seq<Trade>, n: nat, width: int) returns (out: seq<Candle>)
    requires width > 0 && n <= |ts| && TimeSorted(ts) && FirstError(ts).None?
    ensures Built(out, ts, n, width)
  {
    if n == 0 {
      out := [];
    } else {
      var before := CandlesExist(ts, n - 1, width);
      NoErrorMeansGood(ts);
      BuiltNext(before, ts, n - 1, width);
      out := Extended(before, ts[n - 1], width);
    }
  }

  lemma AggregateExists(collate: Collation, input: seq<Trade>, interval: real) returns (r: Result<seq<Candle>>)
    ensures Aggregates(collate, input, interval, r)
  {
    if !SafeInteger(interval) || interval <= 0.0 {
      return Err(BadInterval);
    }
    var ts := Sorted(collate, Dedup(input));
    SortedFacts(collate, Dedup(input));
    if FirstError(ts).Some? {
      return Err(FirstError(ts).value);
    }
    var out := CandlesExist(ts, |ts|, interval.Floor);
    assert ts[..|ts|] == ts;
    r := Ok(out);
  }

  // ---- ties --------------------------------------------------------------------------------------

  /** What any comparison of texts is: reflexive, antisymmetric and transitive; ties between texts are allowed. */
  ghost predicate WeaklyOrders(collate: Collation) {
    && (forall x :: collate(x, x) == 0)
    && (forall x, y :: collate(x, y) < 0 <==> collate(y, x) > 0)
    && (forall x, y, z :: collate(x, y) <= 0 && collate(y, z) <= 0 ==> collate(x, z) <= 0)
  }

  ghost predicate TellsIdsApart(collate: Collation) {
    forall x, y :: collate(x, y) == 0 ==> x == y
  }

  /** Every permutation of every input with distinct ids aggregates alike, for every interval. */
  ghost predicate OrderNeverShows(collate: Collation) {
    forall a, b, interval, ra, rb |
      DistinctIds(a) && multiset(a) == multiset(b) && Aggregates(collate, a, interval, ra) && Aggregates(collate, b, interval, rb) ::
      ra == rb
  }

  lemma StrictlyTransitive(collate: Collation, x: string, y: string, z: string)
    requires WeaklyOrders(collate) && collate(x, y) < 0 && collate(y, z) < 0
    ensures collate(x, z) < 0
  {
    assert collate(z, y) > 0;
    assert collate(z, x) <= 0 ==> collate(z, y) <= 0;
  }

  lemma ApartIsTotal(collate: Collation)
    requires WeaklyOrders(collate) && TellsIdsApart(collate)
    ensures TotalOnIds(collate)
  {
    forall x, y, z | collate(x, y) < 0 && collate(y, z) < 0 ensures collate(x, z) < 0 {
      StrictlyTransitive(collate, x, y, z);
    }
  }

  /** Two good trades that tie aggregate to something. */
  lemma TiedAggregate(collate: Collation, a: Trade, b: Trade) returns (out: seq<Candle>)
    requires a.id != b.id && Comparator(collate, a, b) == 0 && TradeError(a).None? && TradeError(b).None?
    ensures Aggregates(collate, [a, b], 1.0, Ok(out))
  {
    TwoTiedTrades(collate, a, b);
    assert FirstError([a, b]).None? by {
      assert [a, b][..1] == [a] && [a][..0] == [];
      assert FirstError([a]).None?;
    }
    var r := AggregateExists(collate, [a, b], 1.0);
    out := r.value;
  }

  /** A tie has two inputs, each the other's permutation, that do aggregate, and differently. */
  lemma TieShows(collate: Collation, x: string, y: string) returns (ra: seq<Candle>, rb: seq<Candle>)
    requires x != y && collate(x, y) == 0 && collate(y, x) == 0
    ensures Aggregates(collate, [Dealt(x, 1), Dealt(y, 2)], 1.0, Ok(ra))
    ensures Aggregates(collate, [Dealt(y, 2), Dealt(x, 1)], 1.0, Ok(rb))
    ensures ra != rb
  {
    ra := TiedAggregate(collate, Dealt(x, 1), Dealt(y, 2));
    rb := TiedAggregate(collate, Dealt(y, 2), Dealt(x, 1));
    TiedIdsKeepArrivalOrder(collate, x, y, ra, rb);
  }

  lemma SwappedIsPermutation(a: Trade, b: Trade)
    ensures multiset([a, b]) == multiset([b, a])
  {
    assert multiset([a, b]) == multiset{a, b} == multiset([b, a]);
  }

  /**
   * The exact condition on the locale: the order of arrival never shows in the candles of trades with distinct
   * ids if and only if no two different ids compare equal.
   */
  lemma OrderNeverShowsIff(collate: Collation)
    requires WeaklyOrders(collate)
    ensures OrderNeverShows(collate) <==> TellsIdsApart(collate)
  {
    if TellsIdsApart(collate) {
      ApartIsTotal(collate);
      forall a, b, interval, ra, rb |
        DistinctIds(a) && multiset(a) == multiset(b) && Aggregates(collate, a, interval, ra) && Aggregates(collate, b, interval, rb)
        ensures ra == rb
      {
        PermutationSameCandles(collate, a, b, interval, ra, rb);
      }
    } else {
      var x, y :| collate(x, y) == 0 && x != y;
      var ra, rb := TieShows(collate, x, y);
      var a, b := [Dealt(x, 1), Dealt(y, 2)], [Dealt(y, 2), Dealt(x, 1)];
      SwappedIsPermutation(Dealt(x, 1), Dealt(y, 2));
      assert DistinctIds(a) && Aggregates(collate, a, 1.0, Ok(ra)) && Aggregates(collate, b, 1.0, Ok(rb));
    }
  }

  // ---- shared ids --------------------------------------------------------------------------------

  /** Of two trades under one id only the earlier arrival reaches the candles, whatever the other says. */
  lemma OnlyFirstOfAnIdCounts(collate: Collation, a: Trade, b: Trade, interval: real, r: Result<seq<Candle>>)
    requires a.id == b.id
    ensures Aggregates(collate, [a, b], interval, r) <==> Aggregates(collate, [a], interval, r)
  {
    FirstDuplicateWins(a, b);
    assert [a][..0] == [];
    assert Dedup([a]) == [a];
  }

  lemma OpenOfOne(out: seq<Candle>, t: Trade) returns (k: nat)
    requires Described(out, [t], 1) && Start(t, 1) == 0
    ensures k < |out| && out[k].start == 0 && Valid(t.price) && out[k].open == Canonical(t.price)
  {
    assert Start([t][0], 1) in Starts(out);
    k :| 0 <= k < |out| && out[k].start == 0;
    BucketAppend([], t, 0, 1);
    assert [] + [t] == [t];
    assert Fits(out[k], [t]) && Valid([t][0].price);
  }

  lemma OneDealt(collate: Collation, id: string, price: int) returns (out: seq<Candle>, k: nat)
    requires price > 0
    ensures Aggregates(collate, [Dealt(id, price)], 1.0, Ok(out))
    ensures k < |out| && out[k].start == 0 && out[k].open == Rational(price, 1)
  {
    var t := Dealt(id, price);
    OneTrade(collate, t);
    var r := AggregateExists(collate, [t], 1.0);
    out := r.value;
    k := OpenOfOne(out, t);
    OnePriceReduced(price);
  }

  lemma OneTrade(collate: Collation, t: Trade)
    requires TradeError(t).None?
    ensures Sorted(collate, Dedup([t])) == [t] && FirstError([t]).None?
  {
    assert [t][..0] == [];
    assert Dedup([t]) == [t];
  }

  /** Two inputs that hold the same two trades under one id, aggregated in the two orders, differ. */
  lemma SharedIdShows(collate: Collation, id: string) returns (ra: seq<Candle>, rb: seq<Candle>)
    ensures Aggregates(collate, [Dealt(id, 1), Dealt(id, 2)], 1.0, Ok(ra))
    ensures Aggregates(collate, [Dealt(id, 2), Dealt(id, 1)], 1.0, Ok(rb))
    ensures ra != rb
  {
    var i, j;
    ra, i := OneDealt(collate, id, 1);
    rb, j := OneDealt(collate, id, 2);
    OnlyFirstOfAnIdCounts(collate, Dealt(id, 1), Dealt(id, 2), 1.0, Ok(ra));
    OnlyFirstOfAnIdCounts(collate, Dealt(id, 2), Dealt(id, 1), 1.0, Ok(rb));
    assert ra[i].start == rb[j].start && ra[i].open != rb[j].open;
  }
}
