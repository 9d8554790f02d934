/**
 * Executed trades on a pair and the order candles are built in (src/market/ohlcv.ts): first occurrence of an id
 * wins, then a stable sort by time, slot, sequence and id.
 */
module Trades {
  import opened Rationals

  datatype Trade = Trade(
    id: string,
    timestamp: real,
    price: Rational,
    baseAmount: int,
    quoteAmount: int,
    slot: int,
    sequence: int)

  /** The locale's comparison of ids, which the source leaves to the platform. */
  type Collation = (string, string) -> int

  function Comparator(collate: Collation, a: Trade, b: Trade): int {
    if a.timestamp != b.timestamp then if a.timestamp < b.timestamp then -1 else 1
    else if a.slot != b.slot then if a.slot < b.slot then -1 else 1
    else if a.sequence != b.sequence then a.sequence - b.sequence
    else collate(a.id, b.id)
  }

  ghost predicate TotalOnIds(collate: Collation) {
    && (forall x, y :: collate(x, y) == 0 <==> x == y)
    && (forall x, y :: collate(x, y) < 0 <==> collate(y, x) > 0)
    && (forall x, y, z :: collate(x, y) < 0 && collate(y, z) < 0 ==> collate(x, z) < 0)
  }

  /** Comparison by code units, shorter first: one collation that tells all ids apart. */
  function CodeUnits(a: string, b: string): int {
    if a == [] || b == [] then |a| - |b|
    else if a[0] != b[0] then a[0] as int - b[0] as int
    else CodeUnits(a[1..], b[1..])
  }

  lemma {:induction false} CodeUnitsSigns(a: string, b: string)
    ensures CodeUnits(a, b) == 0 <==> a == b
    ensures CodeUnits(a, b) == -CodeUnits(b, a)
  {
    if a != [] && b != [] && a[0] == b[0] {
      CodeUnitsSigns(a[1..], b[1..]);
      assert a == [a[0]] + a[1..] && b == [b[0]] + b[1..];
    }
  }

  lemma {:induction false} CodeUnitsTransitive(a: string, b: string, c: string)
    requires CodeUnits(a, b) < 0 && CodeUnits(b, c) < 0
    ensures CodeUnits(a, c) < 0
  {
    if a != [] && b != [] && c != [] && a[0] == b[0] == c[0] {
      CodeUnitsTransitive(a[1..], b[1..], c[1..]);
    }
  }

  lemma CodeUnitsAreTotal()
    ensures TotalOnIds(CodeUnits)
  {
    forall x, y ensures CodeUnits(x, y) == 0 <==> x == y {
      CodeUnitsSigns(x, y);
    }
    forall x, y ensures CodeUnits(x, y) < 0 <==> CodeUnits(y, x) > 0 {
      CodeUnitsSigns(x, y);
    }
    forall x, y, z | CodeUnits(x, y) < 0 && CodeUnits(y, z) < 0 ensures CodeUnits(x, z) < 0 {
      CodeUnitsTransitive(x, y, z);
    }
  }

  // ---- duplicates --------------------------------------------------------------------------------

  function Ids(ts: seq<Trade>): set<string> {
    set t | t in ts :: t.id
  }

  ghost predicate DistinctIds(ts: seq<Trade>) {
    forall i, j | 0 <= i < j < |ts| :: ts[i].id != ts[j].id
  }

  /** The first trade of each id, in order of arrival. */
  function Dedup(ts: seq<Trade>): seq<Trade> {
    if ts == [] then []
    else
      var kept, last := Dedup(ts[..|ts| - 1]), ts[|ts| - 1];
      if last.id in Ids(kept) then kept else kept + [last]
  }

  method FilterDuplicates(input: seq<Trade>) returns (kept: seq<Trade>)
    ensures kept == Dedup(input)
  {
    var seen: set<string> := {};
    kept := [];
    for n := 0 to |input|
      invariant kept == Dedup(input[..n])
      invariant seen == Ids(kept)
    {
      assert input[..n + 1][..n] == input[..n];
      if input[n].id !in seen {
        seen := seen + {input[n].id};
        kept := kept + [input[n]];
      }
    }
    assert input[..|input|] == input;
  }

  lemma {:induction false} DedupFacts(ts: seq<Trade>)
    ensures DistinctIds(Dedup(ts))
    ensures Ids(Dedup(ts)) == Ids(ts)
    ensures forall t | t in Dedup(ts) :: t in ts
  {
    if ts != [] {
      var rest, last := ts[..|ts| - 1], ts[|ts| - 1];
      DedupFacts(rest);
      assert ts == rest + [last];
      assert Ids(ts) == Ids(rest) + {last.id};
      var kept := Dedup(rest);
      if last.id !in Ids(kept) {
        assert Ids(kept + [last]) == Ids(kept) + {last.id};
        forall i | 0 <= i < |kept| ensures kept[i].id != last.id {
          assert kept[i].id in Ids(kept);
        }
      }
    }
  }

  /** Trades with one id are one trade. */
  ghost predicate Consistent(ts: seq<Trade>) {
    forall t, u | t in ts && u in ts && t.id == u.id :: t == u
  }

  lemma DedupKeepsTrades(ts: seq<Trade>, t: Trade)
    requires Consistent(ts) && t in ts
    ensures t in Dedup(ts)
  {
    DedupFacts(ts);
    assert t.id in Ids(ts);
    var u :| u in Dedup(ts) && u.id == t.id;
    assert u in ts;
  }

  // ---- sorting -----------------------------------------------------------------------------------

  /** Stable: a trade goes after the last one that does not compare greater. */
  function Insert(collate: Collation, sorted: seq<Trade>, t: Trade): seq<Trade> {
    if sorted == [] then [t]
    else
      var n := |sorted| - 1;
      if Comparator(collate, sorted[n], t) <= 0 then sorted + [t]
      else Insert(collate, sorted[..n], t) + [sorted[n]]
  }

  function Sorted(collate: Collation, ts: seq<Trade>): seq<Trade> {
    if ts == [] then [] else Insert(collate, Sorted(collate, ts[..|ts| - 1]), ts[|ts| - 1])
  }

  ghost predicate TimeSorted(ts: seq<Trade>) {
    forall i, j | 0 <= i < j < |ts| :: ts[i].timestamp <= ts[j].timestamp
  }

  ghost predicate Ascending(collate: Collation, ts: seq<Trade>) {
    forall i, j | 0 <= i < j < |ts| :: Comparator(collate, ts[i], ts[j]) < 0
  }

  lemma {:induction false} InsertMembers(collate: Collation, sorted: seq<Trade>, t: Trade)
    ensures multiset(Insert(collate, sorted, t)) == multiset(sorted) + multiset{t}
    ensures forall u :: u in Insert(collate, sorted, t) <==> u in sorted || u == t
  {
    if sorted != [] {
      var n := |sorted| - 1;
      assert sorted == sorted[..n] + [sorted[n]];
      if Comparator(collate, sorted[n], t) > 0 {
        InsertMembers(collate, sorted[..n], t);
      }
    }
  }

  lemma {:induction false} InsertKeepsTime(collate: Collation, sorted: seq<Trade>, t: Trade)
    requires TimeSorted(sorted)
    ensures TimeSorted(Insert(collate, sorted, t))
  {
    if sorted != [] {
      var n := |sorted| - 1;
      if Comparator(collate, sorted[n], t) > 0 {
        InsertKeepsTime(collate, sorted[..n], t);
        InsertMembers(collate, sorted[..n], t);
        var front := Insert(collate, sorted[..n], t);
        forall i | 0 <= i < |front| ensures front[i].timestamp <= sorted[n].timestamp {
          assert front[i] in front;
        }
      }
    }
  }

  lemma {:induction false} SortedFacts(collate: Collation, ts: seq<Trade>)
    ensures multiset(Sorted(collate, ts)) == multiset(ts)
    ensures TimeSorted(Sorted(collate, ts))
    ensures forall u :: u in Sorted(collate, ts) <==> u in ts
  {
    if ts != [] {
      var n := |ts| - 1;
      SortedFacts(collate, ts[..n]);
      InsertMembers(collate, Sorted(collate, ts[..n]), ts[n]);
      InsertKeepsTime(collate, Sorted(collate, ts[..n]), ts[n]);
      assert ts == ts[..n] + [ts[n]];
    }
  }

  lemma ComparatorTransitive(collate: Collation, a: Trade, b: Trade, c: Trade)
    requires TotalOnIds(collate)
    requires Comparator(collate, a, b) < 0 && Comparator(collate, b, c) < 0
    ensures Comparator(collate, a, c) < 0
  {
  }

  lemma {:induction false} InsertAscends(collate: Collation, sorted: seq<Trade>, t: Trade)
    requires TotalOnIds(collate) && Ascending(collate, sorted) && t.id !in Ids(sorted)
    ensures Ascending(collate, Insert(collate, sorted, t))
  {
    if sorted != [] {
      var n := |sorted| - 1;
      var last := sorted[n];
      assert last.id in Ids(sorted);
      if Comparator(collate, last, t) <= 0 {
        forall i | 0 <= i < n ensures Comparator(collate, sorted[i], t) < 0 {
          ComparatorTransitive(collate, sorted[i], last, t);
        }
      } else {
        assert Ids(sorted[..n]) <= Ids(sorted);
        InsertAscends(collate, sorted[..n], t);
        InsertMembers(collate, sorted[..n], t);
        var front := Insert(collate, sorted[..n], t);
        forall i | 0 <= i < |front| ensures Comparator(collate, front[i], last) < 0 {
          assert front[i] in front;
        }
      }
    }
  }

  lemma {:induction false} SortedAscends(collate: Collation, ts: seq<Trade>)
    requires TotalOnIds(collate) && DistinctIds(ts)
    ensures Ascending(collate, Sorted(collate, ts))
  {
    if ts != [] {
      var n := |ts| - 1;
      var front := Sorted(collate, ts[..n]);
      SortedAscends(collate, ts[..n]);
      SortedFacts(collate, ts[..n]);
      forall u | u in front ensures u.id != ts[n].id {
        assert u in ts[..n];
      }
      InsertAscends(collate, front, ts[n]);
    }
  }

  ghost predicate SameTrades(a: seq<Trade>, b: seq<Trade>) {
    forall t :: t in a <==> t in b
  }

  lemma LastIsGreatest(collate: Collation, a: seq<Trade>, t: Trade)
    requires TotalOnIds(collate) && Ascending(collate, a) && t in a
    ensures t == a[|a| - 1] || Comparator(collate, t, a[|a| - 1]) < 0
    ensures t in a[..|a| - 1] <==> t != a[|a| - 1]
  {
    assert Comparator(collate, a[|a| - 1], a[|a| - 1]) == 0;
  }

  /** There is only one ascending listing of a set of trades. */
  lemma {:induction false} AscendingIsUnique(collate: Collation, a: seq<Trade>, b: seq<Trade>)
    requires TotalOnIds(collate) && Ascending(collate, a) && Ascending(collate, b) && SameTrades(a, b)
    ensures a == b
    decreases |a|
  {
    assert (a != [] ==> a[0] in b) && (b != [] ==> b[0] in a);
    if a != [] {
      var m, n := |a| - 1, |b| - 1;
      assert a[m] in b && b[n] in a;
      LastIsGreatest(collate, a, b[n]);
      LastIsGreatest(collate, b, a[m]);
      assert a[m] == b[n];
      forall t ensures t in a[..m] <==> t in b[..n] {
        if t in a {
          LastIsGreatest(collate, a, t);
          LastIsGreatest(collate, b, t);
        }
      }
      AscendingIsUnique(collate, a[..m], b[..n]);
      assert a == a[..m] + [a[m]] && b == b[..n] + [b[n]];
    }
  }

  /** The trades in candle order depend only on which trades there are. */
  lemma OrderOfArrivalIsLost(collate: Collation, a: seq<Trade>, b: seq<Trade>)
    requires TotalOnIds(collate) && Consistent(a) && SameTrades(a, b)
    ensures Sorted(collate, Dedup(a)) == Sorted(collate, Dedup(b))
  {
    DedupFacts(a);
    DedupFacts(b);
    SortedAscends(collate, Dedup(a));
    SortedAscends(collate, Dedup(b));
    SortedFacts(collate, Dedup(a));
    SortedFacts(collate, Dedup(b));
    forall t ensures t in Sorted(collate, Dedup(a)) <==> t in Sorted(collate, Dedup(b)) {
      if t in a {
        assert t in b;
        DedupKeepsTrades(a, t);
        DedupKeepsTrades(b, t);
      }
    }
    AscendingIsUnique(collate, Sorted(collate, Dedup(a)), Sorted(collate, Dedup(b)));
  }

  // ---- prices in lowest terms --------------------------------------------------------------------

  /** The trade with its price in lowest terms. */
  function Normal(t: Trade): Trade {
    if Valid(t.price) then t.(price := Canonical(t.price)) else t
  }

  function NormalAll(ts: seq<Trade>): seq<Trade> {
    seq(|ts|, i requires 0 <= i < |ts| => Normal(ts[i]))
  }

  lemma NormalAppend(ts: seq<Trade>, t: Trade)
    ensures NormalAll(ts + [t]) == NormalAll(ts) + [Normal(t)]
  {
  }

  lemma NormalIds(ts: seq<Trade>)
    ensures Ids(NormalAll(ts)) == Ids(ts)
  {
    forall t | t in ts ensures t.id in Ids(NormalAll(ts)) {
      var i :| 0 <= i < |ts| && ts[i] == t;
      assert NormalAll(ts)[i] in NormalAll(ts);
    }
  }

  lemma {:induction false} DedupNormal(ts: seq<Trade>)
    ensures Dedup(NormalAll(ts)) == NormalAll(Dedup(ts))
  {
    if ts != [] {
      var n := |ts| - 1;
      var all := NormalAll(ts);
      assert all[..n] == NormalAll(ts[..n]);
      DedupNormal(ts[..n]);
      NormalIds(Dedup(ts[..n]));
      NormalAppend(Dedup(ts[..n]), ts[n]);
    }
  }

  lemma {:induction false} InsertNormal(collate: Collation, sorted: seq<Trade>, t: Trade)
    ensures Insert(collate, NormalAll(sorted), Normal(t)) == NormalAll(Insert(collate, sorted, t))
  {
    if sorted != [] {
      var n := |sorted| - 1;
      assert NormalAll(sorted)[..n] == NormalAll(sorted[..n]);
      InsertNormal(collate, sorted[..n], t);
      NormalAppend(Insert(collate, sorted[..n], t), sorted[n]);
      NormalAppend(sorted, t);
    }
  }

  lemma {:induction false} SortedNormal(collate: Collation, ts: seq<Trade>)
    ensures Sorted(collate, NormalAll(ts)) == NormalAll(Sorted(collate, ts))
  {
    if ts != [] {
      var n := |ts| - 1;
      assert NormalAll(ts)[..n] == NormalAll(ts[..n]);
      SortedNormal(collate, ts[..n]);
      InsertNormal(collate, Sorted(collate, ts[..n]), ts[n]);
    }
  }
}
