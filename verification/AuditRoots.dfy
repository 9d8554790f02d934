/**
 * Batched audit roots (src/observability/index.ts): leaves collected in order, and a flush that folds a batch to
 * one root, level by level, doubling the last node of an odd level.
 */
module AuditRoots {
  import opened Options

  type Hash = string -> string

  /** How many nodes the level above has. */
  function Half(n: nat): nat {
    (n + 1) / 2
  }

  /** The string hashed for node `i` of the level above: a last node without a sibling stands twice. */
  function PairInput(level: seq<string>, i: nat): string
    requires i < Half(|level|)
  {
    level[2 * i] + (if 2 * i + 1 < |level| then level[2 * i + 1] else level[2 * i])
  }

  /** One level up. */
  function Paired(hash: Hash, level: seq<string>): (next: seq<string>)
    ensures |next| == Half(|level|)
  {
    seq(Half(|level|), i requires 0 <= i < Half(|level|) => hash(PairInput(level, i)))
  }

  function RootOf(hash: Hash, level: seq<string>): string
    requires level != []
    decreases |level|
  {
    if |level| == 1 then level[0] else RootOf(hash, Paired(hash, level))
  }

  // ---- the tree, from the top --------------------------------------------------------------------

  function Width(n: nat, height: nat): nat {
    if height == 0 then n else Half(Width(n, height - 1))
  }

  function Height(n: nat): nat {
    if n <= 1 then 0 else 1 + Height(Half(n))
  }

  /** The node `i` of the tree at a height over the leaves; a node without a sibling is its own. */
  function Node(hash: Hash, leaves: seq<string>, height: nat, i: nat): string
    requires i < Width(|leaves|, height)
    decreases height
  {
    if height == 0 then leaves[i]
    else
      var left := Node(hash, leaves, height - 1, 2 * i);
      var right := if 2 * i + 1 < Width(|leaves|, height - 1) then Node(hash, leaves, height - 1, 2 * i + 1) else left;
      hash(left + right)
  }

  lemma {:induction false} WidthFromBelow(n: nat, height: nat)
    ensures Width(n, height + 1) == Width(Half(n), height)
  {
    if height > 0 {
      WidthFromBelow(n, height - 1);
    }
  }

  lemma LowestNode(hash: Hash, level: seq<string>, i: nat)
    requires i < Half(|level|)
    ensures Width(|level|, 1) == Half(|level|)
    ensures Node(hash, level, 1, i) == Paired(hash, level)[i]
  {
    assert Width(|level|, 0) == |level|;
    var left, right := Node(hash, level, 0, 2 * i), level[2 * i];
    if 2 * i + 1 < |level| {
      right := Node(hash, level, 0, 2 * i + 1);
    }
    assert left + right == PairInput(level, i);
    assert Node(hash, level, 1, i) == hash(left + right);
  }

  /** The tree over a level is the upper part of the tree over the level below. */
  lemma {:induction false} NodeFromBelow(hash: Hash, level: seq<string>, height: nat, i: nat)
    requires i < Width(Half(|level|), height)
    ensures i < Width(|level|, height + 1)
    ensures Node(hash, level, height + 1, i) == Node(hash, Paired(hash, level), height, i)
    decreases height
  {
    WidthFromBelow(|level|, height);
    if height == 0 {
      LowestNode(hash, level, i);
    } else {
      var below := Width(Half(|level|), height - 1);
      WidthFromBelow(|level|, height - 1);
      NodeFromBelow(hash, level, height - 1, 2 * i);
      if 2 * i + 1 < below {
        NodeFromBelow(hash, level, height - 1, 2 * i + 1);
      }
    }
  }

  lemma {:induction false} OneAtTheTop(n: nat)
    requires n > 0
    ensures Width(n, Height(n)) == 1
  {
    if n > 1 {
      OneAtTheTop(Half(n));
      WidthFromBelow(n, Height(Half(n)));
    }
  }

  /** Folding level by level computes the top of the tree. */
  lemma {:induction false} RootIsTop(hash: Hash, leaves: seq<string>)
    requires leaves != []
    ensures Width(|leaves|, Height(|leaves|)) == 1
    ensures RootOf(hash, leaves) == Node(hash, leaves, Height(|leaves|), 0)
    decreases |leaves|
  {
    OneAtTheTop(|leaves|);
    if |leaves| > 1 {
      RootIsTop(hash, Paired(hash, leaves));
      NodeFromBelow(hash, leaves, Height(Half(|leaves|)), 0);
    }
  }

  // ---- a root from the roots of its parts ----------------------------------------------------------

  function Pow2(k: nat): (p: nat)
    ensures p >= 1
  {
    if k == 0 then 1 else 2 * Pow2(k - 1)
  }

  /** A node with no sibling on so many levels: it stands twice on each. */
  function Doubled(hash: Hash, node: string, levels: nat): string {
    if levels == 0 then node
    else
      var below := Doubled(hash, node, levels - 1);
      hash(below + below)
  }

  lemma {:induction false} DoubledFromBelow(hash: Hash, node: string, levels: nat)
    ensures Doubled(hash, node, levels + 1) == Doubled(hash, hash(node + node), levels)
  {
    if levels > 0 {
      DoubledFromBelow(hash, node, levels - 1);
    }
  }

  lemma {:induction false} HeightFits(n: nat, k: nat)
    requires n <= Pow2(k)
    ensures Height(n) <= k
  {
    if n > 1 {
      HeightFits(Half(n), k - 1);
    }
  }

  lemma PairsOfParts(hash: Hash, a: seq<string>, b: seq<string>)
    requires |a| % 2 == 0
    ensures Paired(hash, a + b) == Paired(hash, a) + Paired(hash, b)
  {
    forall i | 0 <= i < Half(|a + b|) ensures Paired(hash, a + b)[i] == (Paired(hash, a) + Paired(hash, b))[i] {
      if i < Half(|a|) {
        assert PairInput(a + b, i) == PairInput(a, i);
      } else {
        assert PairInput(a + b, i) == PairInput(b, i - Half(|a|));
      }
    }
  }

  lemma RootOfPair(hash: Hash, a: string, b: string)
    ensures RootOf(hash, [a] + [b]) == hash(a + b)
  {
    assert PairInput([a] + [b], 0) == a + b;
    assert Paired(hash, [a] + [b]) == [hash(a + b)];
  }

  lemma OneUp(hash: Hash, right: seq<string>, k: nat)
    requires k > 0 && right != [] && Height(|right|) <= k
    ensures var next := Paired(hash, right);
      && Height(|next|) <= k - 1
      && Doubled(hash, RootOf(hash, next), k - 1 - Height(|next|)) == Doubled(hash, RootOf(hash, right), k - Height(|right|))
  {
    if |right| == 1 {
      assert PairInput(right, 0) == right[0] + right[0];
      DoubledFromBelow(hash, right[0], k - 1);
    }
  }

  /**
   * The shape of the tree. A full left part of a power of two leaves and whatever follows it, up to as many, are
   * hashed left before right; the root of a shorter right part stands twice on each level on which it is alone.
   */
  lemma {:induction false} RootSplits(hash: Hash, left: seq<string>, right: seq<string>, k: nat)
    requires |left| == Pow2(k) && 0 < |right| <= Pow2(k)
    ensures Height(|right|) <= k
    ensures RootOf(hash, left + right) ==
      hash(RootOf(hash, left) + Doubled(hash, RootOf(hash, right), k - Height(|right|)))
    decreases k
  {
    HeightFits(|right|, k);
    if k == 0 {
      assert left == [left[0]] && right == [right[0]];
      RootOfPair(hash, left[0], right[0]);
    } else {
      PairsOfParts(hash, left, right);
      assert |Paired(hash, left)| == Pow2(k - 1);
      OneUp(hash, right, k);
      RootSplits(hash, Paired(hash, left), Paired(hash, right), k - 1);
      FoldOnce(hash, left);
      FoldOnce(hash, left + right);
    }
  }

  // ---- what a root pins down ---------------------------------------------------------------------

  const DIGEST_LENGTH := 64

  predicate Digests(level: seq<string>) {
    forall i | 0 <= i < |level| :: |level[i]| == DIGEST_LENGTH
  }

  ghost predicate MakesDigests(hash: Hash) {
    forall s :: |hash(s)| == DIGEST_LENGTH
  }

  /** The strings hashed to go one level up. */
  function PairInputs(level: seq<string>): set<string> {
    set i | 0 <= i < Half(|level|) :: PairInput(level, i)
  }

  /** Every string hashed on the way to the root. */
  function Inputs(hash: Hash, level: seq<string>): set<string>
    decreases |level|
  {
    if |level| <= 1 then {} else PairInputs(level) + Inputs(hash, Paired(hash, level))
  }

  ghost predicate CollisionFree(hash: Hash, inputs: set<string>) {
    forall x, y | x in inputs && y in inputs && hash(x) == hash(y) :: x == y
  }

  lemma HalvesEqual(a: string, b: string, c: string, d: string)
    requires |a| == |c| && a + b == c + d
    ensures a == c && b == d
  {
    assert a == (a + b)[..|a|] && c == (c + d)[..|c|];
    assert b == (a + b)[|a|..] && d == (c + d)[|c|..];
  }

  lemma InputPinsPair(a: seq<string>, b: seq<string>, i: nat)
    requires |a| == |b| && Digests(a) && Digests(b) && i < Half(|a|) && PairInput(a, i) == PairInput(b, i)
    ensures a[2 * i] == b[2 * i]
    ensures 2 * i + 1 < |a| ==> a[2 * i + 1] == b[2 * i + 1]
  {
    HalvesEqual(a[2 * i], if 2 * i + 1 < |a| then a[2 * i + 1] else a[2 * i],
                b[2 * i], if 2 * i + 1 < |b| then b[2 * i + 1] else b[2 * i]);
  }

  lemma PairedInjective(hash: Hash, a: seq<string>, b: seq<string>)
    requires |a| == |b| && Digests(a) && Digests(b)
    requires CollisionFree(hash, PairInputs(a) + PairInputs(b)) && Paired(hash, a) == Paired(hash, b)
    ensures a == b
  {
    forall k | 0 <= k < |a| ensures a[k] == b[k] {
      var i := k / 2;
      assert PairInput(a, i) in PairInputs(a) && PairInput(b, i) in PairInputs(b);
      assert Paired(hash, a)[i] == hash(PairInput(a, i)) && Paired(hash, b)[i] == hash(PairInput(b, i));
      InputPinsPair(a, b, i);
    }
  }

  /**
   * Two batches of one size with one root hold the same leaves in the same order, unless two of the strings
   * hashed for these very roots collide.
   */
  lemma {:induction false} RootPinsLeaves(hash: Hash, a: seq<string>, b: seq<string>)
    requires a != [] && |a| == |b| && Digests(a) && Digests(b) && MakesDigests(hash)
    requires CollisionFree(hash, Inputs(hash, a) + Inputs(hash, b))
    requires RootOf(hash, a) == RootOf(hash, b)
    ensures a == b
    decreases |a|
  {
    if |a| > 1 {
      RootPinsLeaves(hash, Paired(hash, a), Paired(hash, b));
      PairedInjective(hash, a, b);
    }
  }

  lemma RepeatedLastSamePairs(hash: Hash, leaves: seq<string>)
    requires |leaves| % 2 == 1
    ensures Paired(hash, leaves + [leaves[|leaves| - 1]]) == Paired(hash, leaves)
  {
    var longer := leaves + [leaves[|leaves| - 1]];
    forall i | 0 <= i < Half(|leaves|) ensures PairInput(longer, i) == PairInput(leaves, i) {
    }
  }

  lemma FoldOnce(hash: Hash, level: seq<string>)
    requires |level| > 1
    ensures RootOf(hash, level) == RootOf(hash, Paired(hash, level))
  {
  }

  /** The leaf count is needed: repeating the last leaf of an odd batch of several leaves keeps the root. */
  lemma RepeatedLastSameRoot(hash: Hash, leaves: seq<string>)
    requires |leaves| > 1 && |leaves| % 2 == 1
    ensures RootOf(hash, leaves + [leaves[|leaves| - 1]]) == RootOf(hash, leaves)
  {
    FoldOnce(hash, leaves);
    FoldOnce(hash, leaves + [leaves[|leaves| - 1]]);
    RepeatedLastSamePairs(hash, leaves);
  }

  // ---- the batcher -------------------------------------------------------------------------------

  datatype Root = Root(root: string, leafCount: nat, createdAt: int)

  /** A batch that left the buffer, and whether the sink took its root. */
  datatype Batch = Batch(leaves: seq<string>, createdAt: int, delivered: bool)

  ghost function AllLeaves(batches: seq<Batch>): seq<string> {
    if batches == [] then [] else AllLeaves(batches[..|batches| - 1]) + batches[|batches| - 1].leaves
  }

  /** What the sink must hold: one root for each batch it took. */
  ghost function Delivered(hash: Hash, batches: seq<Batch>): seq<Root>
    requires forall i | 0 <= i < |batches| :: batches[i].leaves != []
  {
    if batches == [] then []
    else
      var last := batches[|batches| - 1];
      Delivered(hash, batches[..|batches| - 1]) +
      (if last.delivered then [Root(RootOf(hash, last.leaves), |last.leaves|, last.createdAt)] else [])
  }

  /** Nothing is lost or reordered: the batches' leaves and the pending ones are those added; the sink matches. */
  ghost predicate Accounts(hash: Hash, size: int, batches: seq<Batch>, pending: seq<string>, added: seq<string>, sink: seq<Root>) {
    && (forall i | 0 <= i < |batches| :: 0 < |batches[i].leaves| <= size)
    && AllLeaves(batches) + pending == added
    && sink == Delivered(hash, batches)
  }

  /** A batch that leaves the buffer moves its leaves, and its root if it is taken. */
  lemma Sealed(hash: Hash, size: int, batches: seq<Batch>, b: Batch, added: seq<string>, sink: seq<Root>)
    requires Accounts(hash, size, batches, b.leaves, added, sink) && 0 < |b.leaves| <= size
    ensures Accounts(hash, size, batches + [b], [], added,
      sink + (if b.delivered then [Root(RootOf(hash, b.leaves), |b.leaves|, b.createdAt)] else []))
  {
    assert (batches + [b])[..|batches|] == batches;
    assert AllLeaves(batches + [b]) + [] == added;
  }

  class AuditRootBatcher {
    const hash: Hash
    const size: int
    var leaves: seq<string>
    var sink: seq<Root>
    ghost var added: seq<string>
    ghost var batches: seq<Batch>

    ghost predicate Valid()
      reads this
    {
      |leaves| < size && Accounts(hash, size, batches, leaves, added, sink)
    }

    constructor (hash: Hash, size: int)
      requires size >= 1
      ensures Valid() && this.hash == hash && this.size == size && added == []
    {
      this.hash, this.size := hash, size;
      leaves, sink, added, batches := [], [], [], [];
    }

    /** The source's constructor: it throws for a size below one. */
    static method Create(hash: Hash, size: int) returns (batcher: Option<AuditRootBatcher>)
      ensures batcher.Some? <==> size >= 1
      ensures batcher.Some? ==> fresh(batcher.value) && batcher.value.Valid() && batcher.value.added == []
    {
      if size < 1 {
        return None;
      }
      var made := new AuditRootBatcher(hash, size);
      return Some(made);
    }

    /** The inner loop: one level up. */
    method PairUp(level: seq<string>) returns (next: seq<string>)
      ensures next == Paired(hash, level)
    {
      next := [];
      var i := 0;
      while i < |level|
        invariant i == 2 * |next| && |next| <= Half(|level|)
        invariant next == Paired(hash, level)[..|next|]
      {
        var right := if i + 1 < |level| then level[i + 1] else level[i];
        assert PairInput(level, |next|) == level[i] + right;
        next := next + [hash(level[i] + right)];
        i := i + 2;
      }
    }

    method Fold(batch: seq<string>) returns (root: string)
      requires batch != []
      ensures root == RootOf(hash, batch)
    {
      var level := batch;
      while |level| > 1
        invariant level != [] && RootOf(hash, level) == RootOf(hash, batch)
        decreases |level|
      {
        level := PairUp(level);
      }
      root := level[0];
    }

    /** Takes every pending leaf out, folds them, and hands the root to the sink, which may refuse it. */
    method Flush(now: int, sinkTakes: bool) returns (root: Option<Root>)
      requires |leaves| <= size && size >= 1 && Accounts(hash, size, batches, leaves, added, sink)
      modifies this
      ensures Valid() && leaves == [] && added == old(added)
      ensures root == if old(leaves) != [] && sinkTakes then Some(Root(RootOf(hash, old(leaves)), |old(leaves)|, now)) else None
      ensures sink == old(sink) + (if root.Some? then [root.value] else [])
      ensures batches == old(batches) + (if old(leaves) == [] then [] else [Batch(old(leaves), now, sinkTakes)])
    {
      root := None;
      if leaves == [] {
        return;
      }
      var batch := leaves;
      leaves := [];
      var folded := Fold(batch);
      Sealed(hash, size, batches, Batch(batch, now, sinkTakes), added, sink);
      batches := batches + [Batch(batch, now, sinkTakes)];
      if sinkTakes {
        root := Some(Root(folded, |batch|, now));
        sink := sink + [root.value];
      }
    }

    /** Adds a leaf, flushing when the batch is full. */
    method Add(leaf: string, now: int, sinkTakes: bool) returns (root: Option<Root>)
      requires Valid()
      modifies this
      ensures Valid() && added == old(added) + [leaf]
      ensures if |old(leaves)| + 1 < size
              then leaves == old(leaves) + [leaf] && batches == old(batches)
              else leaves == [] && batches == old(batches) + [Batch(old(leaves) + [leaf], now, sinkTakes)]
      ensures root.Some? <==> |old(leaves)| + 1 == size && sinkTakes
      ensures root.Some? ==> root.value == Root(RootOf(hash, old(leaves) + [leaf]), size, now)
      ensures sink == old(sink) + (if root.Some? then [root.value] else [])
    {
      leaves := leaves + [leaf];
      added := added + [leaf];
      assert AllLeaves(batches) + leaves == added;
      if |leaves| < size {
        return None;
      }
      root := Flush(now, sinkTakes);
    }
  }
}
