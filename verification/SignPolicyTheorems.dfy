/**
 * What the signer's policy accepts, in terms of bytes, rules and limits alone: the amounts it reads, the rule it
 * applies, and the bounds an accepted transaction keeps.
 */
module SignPolicyTheorems {
  import opened Options
  import opened Basics
  import opened Rationals
  import opened SignPolicy

  // ---- the amounts -------------------------------------------------------------------------------

  /** Four bytes from an offset, the first the least significant. */
  function FourBytes(data: seq<byte>, offset: nat): nat
    requires offset + 4 <= |data|
  {
    data[offset] as nat + 0x100 * data[offset + 1] as nat + 0x1_0000 * data[offset + 2] as nat
    + 0x100_0000 * data[offset + 3] as nat
  }

  /** What an amount field is worth: four bytes, or eight with the later four weighing 2^32 as much. */
  function Worth(data: seq<byte>, offset: nat, wide: bool): nat
    requires offset + (if wide then 8 else 4) <= |data|
  {
    FourBytes(data, offset) + if wide then 0x1_0000_0000 * FourBytes(data, offset + 4) else 0
  }

  lemma LittleEndianSteps(bytes: seq<byte>)
    requires |bytes| >= 4
    ensures LittleEndian(bytes) == FourBytes(bytes, 0) + 0x1_0000_0000 * LittleEndian(bytes[4..])
  {
    assert bytes[1..][1..] == bytes[2..] && bytes[2..][1..] == bytes[3..] && bytes[3..][1..] == bytes[4..];
    var a, b, c := LittleEndian(bytes[1..]), LittleEndian(bytes[2..]), LittleEndian(bytes[3..]);
    assert LittleEndian(bytes) == bytes[0] as nat + 256 * a;
    assert a == bytes[1] as nat + 256 * b;
    assert b == bytes[2] as nat + 256 * c;
    assert c == bytes[3] as nat + 256 * LittleEndian(bytes[4..]);
  }

  /** An amount is read exactly where its field fits the data, and is what its bytes are worth. */
  lemma AmountMeans(data: seq<byte>, offset: nat, wide: bool)
    ensures ReadAmount(data, offset, wide).Some? <==> offset + (if wide then 8 else 4) <= |data|
    ensures ReadAmount(data, offset, wide).Some? ==> ReadAmount(data, offset, wide).value == Worth(data, offset, wide)
  {
    var width := if wide then 8 else 4;
    if offset + width <= |data| {
      var field := data[offset..offset + width];
      LittleEndianSteps(field);
      assert FourBytes(field, 0) == FourBytes(data, offset);
      if wide {
        LittleEndianSteps(field[4..]);
        assert FourBytes(field[4..], 0) == FourBytes(data, offset + 4);
        assert field[4..][4..] == [];
      } else {
        assert field[4..] == [];
      }
    }
  }

  function Pow256(k: nat): (p: nat)
    ensures p > 0
  {
    if k == 0 then 1 else 256 * Pow256(k - 1)
  }

  lemma DivideTwice(n: nat, b: nat)
    requires b > 0
    ensures n / (256 * b) == n / 256 / b
  {
    var q := n / 256;
    var t := q / b;
    assert q == b * t + q % b && 0 <= q % b < b;
    assert 256 * b * t == 256 * (b * t);
    QuotientIs(n, 256 * b, t, n - 256 * (b * t));
  }

  /** By position, at any width: the byte at `k` weighs 256 to the power `k`, and nothing weighs more. */
  lemma {:induction false} ByteByPosition(bytes: seq<byte>, k: nat)
    requires k < |bytes|
    ensures LittleEndian(bytes) < Pow256(|bytes|)
    ensures LittleEndian(bytes) / Pow256(k) % 256 == bytes[k] as nat
    decreases |bytes|
  {
    var rest := LittleEndian(bytes[1..]);
    Below(bytes);
    if k == 0 {
      assert LittleEndian(bytes) == bytes[0] as nat + 256 * rest;
    } else {
      ByteByPosition(bytes[1..], k - 1);
      DivideTwice(LittleEndian(bytes), Pow256(k - 1));
      assert LittleEndian(bytes) / 256 == rest;
    }
  }

  lemma {:induction false} Below(bytes: seq<byte>)
    ensures LittleEndian(bytes) < Pow256(|bytes|)
  {
    if bytes != [] {
      Below(bytes[1..]);
    }
  }

  // ---- the rule ----------------------------------------------------------------------------------

  /** A listed rule of the program whose discriminator starts the data, and no such rule has a longer one. */
  predicate Applies(rules: seq<Rule>, ix: Instruction, rule: Rule) {
    && rule in rules && rule.programId == ix.programId && rule.discriminator <= ix.dataHex
    && forall i | 0 <= i < |rules| && rules[i].programId == ix.programId && rules[i].discriminator <= ix.dataHex ::
         |rules[i].discriminator| <= |rule.discriminator|
  }

  /** In a loaded policy, which lists no rule twice, there is one such rule or none. */
  lemma RuleMeans(policy: Policy, ix: Instruction, rule: Rule)
    requires DistinctRules(policy.programs)
    ensures RuleFor(policy, ix) == Some(rule) <==> Applies(policy.programs, ix, rule)
  {
    var rules := policy.programs;
    BestIsLongest(rules, ix.programId, ix.dataHex);
    if Applies(rules, ix, rule) {
      var best := RuleFor(policy, ix).value;
      var i :| 0 <= i < |rules| && rules[i] == rule;
      var j :| 0 <= j < |rules| && rules[j] == best;
      assert Matches(rules[i], ix.programId, ix.dataHex);
      assert |rules[i].discriminator| <= |best.discriminator| && |best.discriminator| <= |rule.discriminator|;
      assert rule.discriminator == ix.dataHex[..|rule.discriminator|];
      assert best.discriminator == ix.dataHex[..|best.discriminator|];
      assert i == j;
    }
  }

  // ---- one instruction ---------------------------------------------------------------------------

  /** The account a spend names as its mint, if it names one, is the asset it is counted against. */
  predicate MintIs(ix: Instruction, asset: string, index: Option<nat>) {
    index.Some? ==> index.value < |ix.accounts| && ix.accounts[index.value] == Some(asset)
  }

  /** An instruction under the rule that applies to it: its amount is in the data, and its mint the rule's asset. */
  predicate FitsRule(ix: Instruction, rule: Rule) {
    match rule.effect
    case NoEffect => true
    case FeeEffect =>
      && (rule.discriminator == "02" ==> 5 <= |ix.data|)
      && (rule.discriminator == "03" ==> 9 <= |ix.data|)
    case SpendEffect(asset, offset, wide, index) =>
      MintIs(ix, asset, index) && offset + (if wide then 8 else 4) <= |ix.data|
  }

  lemma InstructionMeans(policy: Policy, ix: Instruction)
    ensures LocalError(policy, ix).None? <==> RuleFor(policy, ix).Some? && FitsRule(ix, RuleFor(policy, ix).value)
  {
    BestIsLongest(policy.programs, ix.programId, ix.dataHex);
    var rule := RuleFor(policy, ix);
    if rule.Some? {
      var i :| 0 <= i < |policy.programs| && policy.programs[i] == rule.value;
      assert policy.programs[i].programId == ix.programId;
      AmountMeans(ix.data, 1, false);
      AmountMeans(ix.data, 1, true);
      if rule.value.effect.SpendEffect? {
        AmountMeans(ix.data, rule.value.effect.amountOffset, rule.value.effect.wide);
      }
    }
  }

  // ---- sums over the instructions ----------------------------------------------------------------

  /** What an instruction spends of an asset. */
  function SpendOfOne(policy: Policy, ix: Instruction, asset: string): nat
    requires RuleFor(policy, ix).Some? && FitsRule(ix, RuleFor(policy, ix).value)
  {
    match RuleFor(policy, ix).value.effect
    case SpendEffect(a, offset, wide, _) => if a == asset then Worth(ix.data, offset, wide) else 0
    case _ => 0
  }

  predicate AllFit(policy: Policy, ixs: seq<Instruction>) {
    forall i | 0 <= i < |ixs| :: RuleFor(policy, ixs[i]).Some? && FitsRule(ixs[i], RuleFor(policy, ixs[i]).value)
  }

  /** What a transaction spends of an asset, instruction by instruction from the first. */
  function Spent(policy: Policy, ixs: seq<Instruction>, asset: string): nat
    requires AllFit(policy, ixs)
  {
    if ixs == [] then 0 else SpendOfOne(policy, ixs[0], asset) + Spent(policy, ixs[1..], asset)
  }

  lemma MeasureMeans(policy: Policy, ix: Instruction, asset: string)
    requires RuleFor(policy, ix).Some? && FitsRule(ix, RuleFor(policy, ix).value)
    ensures Measured(policy, SpendOf(asset), ix) == SpendOfOne(policy, ix, asset)
  {
    var effect := RuleFor(policy, ix).value.effect;
    if effect.SpendEffect? {
      AmountMeans(ix.data, effect.amountOffset, effect.wide);
    }
  }

  lemma {:induction false} TotalFromFront(policy: Policy, m: Measure, ixs: seq<Instruction>)
    requires ixs != []
    ensures Total(policy, m, ixs) == Measured(policy, m, ixs[0]) + Total(policy, m, ixs[1..])
  {
    TotalRemove(policy, m, ixs, 0);
    assert ixs[..0] + ixs[1..] == ixs[1..];
  }

  lemma {:induction false} SpentIsTotal(policy: Policy, ixs: seq<Instruction>, asset: string)
    requires AllFit(policy, ixs)
    ensures Total(policy, SpendOf(asset), ixs) == Spent(policy, ixs, asset)
  {
    if ixs != [] {
      TotalFromFront(policy, SpendOf(asset), ixs);
      MeasureMeans(policy, ixs[0], asset);
      SpentIsTotal(policy, ixs[1..], asset);
    }
  }

  // ---- the limit and the price in force ----------------------------------------------------------

  /** The instruction falls under the fee rule with this discriminator: "02" sets the limit, "03" the price. */
  predicate IsFee(policy: Policy, ix: Instruction, discriminator: string) {
    var rule := RuleFor(policy, ix);
    rule.Some? && rule.value.effect.FeeEffect? && rule.value.discriminator == discriminator
  }

  predicate AtMostOne(policy: Policy, ixs: seq<Instruction>, discriminator: string) {
    forall i, j | 0 <= i < j < |ixs| :: !(IsFee(policy, ixs[i], discriminator) && IsFee(policy, ixs[j], discriminator))
  }

  /** The limit a transaction sets: four bytes after the discriminator of the instruction that sets one. */
  function LimitSet(policy: Policy, ixs: seq<Instruction>): Option<nat>
    requires AllFit(policy, ixs)
  {
    if ixs == [] then None
    else if IsFee(policy, ixs[0], "02") then Some(FourBytes(ixs[0].data, 1))
    else LimitSet(policy, ixs[1..])
  }

  /** The price it sets: eight bytes after the discriminator. */
  function PriceSet(policy: Policy, ixs: seq<Instruction>): Option<nat>
    requires AllFit(policy, ixs)
  {
    if ixs == [] then None
    else if IsFee(policy, ixs[0], "03") then Some(Worth(ixs[0].data, 1, true))
    else PriceSet(policy, ixs[1..])
  }

  /** Without one, two hundred thousand units an instruction, up to 1.4 million. */
  function LimitInForce(policy: Policy, ixs: seq<Instruction>): nat
    requires AllFit(policy, ixs)
  {
    var given := LimitSet(policy, ixs);
    if given.Some? then given.value else if 200_000 * |ixs| < 1_400_000 then 200_000 * |ixs| else 1_400_000
  }

  function PriceInForce(policy: Policy, ixs: seq<Instruction>): nat
    requires AllFit(policy, ixs)
  {
    var given := PriceSet(policy, ixs);
    if given.Some? then given.value else 0
  }

  lemma FeeMeasures(policy: Policy, ix: Instruction)
    requires RuleFor(policy, ix).Some? && FitsRule(ix, RuleFor(policy, ix).value)
    ensures Measured(policy, LimitCount, ix) == if IsFee(policy, ix, "02") then 1 else 0
    ensures Measured(policy, PriceCount, ix) == if IsFee(policy, ix, "03") then 1 else 0
    ensures Measured(policy, LimitValue, ix) == if IsFee(policy, ix, "02") then FourBytes(ix.data, 1) else 0
    ensures Measured(policy, PriceValue, ix) == if IsFee(policy, ix, "03") then Worth(ix.data, 1, true) else 0
  {
    AmountMeans(ix.data, 1, false);
    AmountMeans(ix.data, 1, true);
  }

  lemma {:induction false} CountsMean(policy: Policy, ixs: seq<Instruction>)
    requires AllFit(policy, ixs)
    ensures Total(policy, LimitCount, ixs) == 0 <==> forall i | 0 <= i < |ixs| :: !IsFee(policy, ixs[i], "02")
    ensures Total(policy, PriceCount, ixs) == 0 <==> forall i | 0 <= i < |ixs| :: !IsFee(policy, ixs[i], "03")
    ensures Total(policy, LimitCount, ixs) <= 1 <==> AtMostOne(policy, ixs, "02")
    ensures Total(policy, PriceCount, ixs) <= 1 <==> AtMostOne(policy, ixs, "03")
  {
    if ixs != [] {
      CountsMean(policy, ixs[1..]);
      TotalFromFront(policy, LimitCount, ixs);
      TotalFromFront(policy, PriceCount, ixs);
      FeeMeasures(policy, ixs[0]);
      OneMoreCounts(policy, ixs, "02");
      OneMoreCounts(policy, ixs, "03");
    }
  }

  lemma OneMoreCounts(policy: Policy, ixs: seq<Instruction>, discriminator: string)
    requires ixs != []
    ensures (forall i | 0 <= i < |ixs| :: !IsFee(policy, ixs[i], discriminator)) <==>
      !IsFee(policy, ixs[0], discriminator) && forall i | 0 <= i < |ixs[1..]| :: !IsFee(policy, ixs[1..][i], discriminator)
    ensures AtMostOne(policy, ixs, discriminator) <==>
      && AtMostOne(policy, ixs[1..], discriminator)
      && (IsFee(policy, ixs[0], discriminator) ==>
            forall i | 0 <= i < |ixs[1..]| :: !IsFee(policy, ixs[1..][i], discriminator))
  {
    assert forall i | 0 < i < |ixs| :: ixs[i] == ixs[1..][i - 1];
  }

  lemma {:induction false} LimitMeans(policy: Policy, ixs: seq<Instruction>)
    requires AllFit(policy, ixs) && Total(policy, LimitCount, ixs) <= 1
    ensures LimitSet(policy, ixs).Some? <==> Total(policy, LimitCount, ixs) > 0
    ensures LimitSet(policy, ixs).Some? ==> Total(policy, LimitValue, ixs) == LimitSet(policy, ixs).value
  {
    if ixs != [] {
      TotalFromFront(policy, LimitCount, ixs);
      TotalFromFront(policy, LimitValue, ixs);
      FeeMeasures(policy, ixs[0]);
      UncountedIsZero(policy, ixs[1..]);
      LimitMeans(policy, ixs[1..]);
    }
  }

  lemma {:induction false} PriceMeans(policy: Policy, ixs: seq<Instruction>)
    requires AllFit(policy, ixs) && Total(policy, PriceCount, ixs) <= 1
    ensures Total(policy, PriceValue, ixs) == PriceInForce(policy, ixs)
  {
    if ixs != [] {
      TotalFromFront(policy, PriceCount, ixs);
      TotalFromFront(policy, PriceValue, ixs);
      FeeMeasures(policy, ixs[0]);
      UncountedIsZero(policy, ixs[1..]);
      PriceMeans(policy, ixs[1..]);
      PriceAbsent(policy, ixs[1..]);
    }
  }

  lemma {:induction false} PriceAbsent(policy: Policy, ixs: seq<Instruction>)
    requires AllFit(policy, ixs)
    ensures Total(policy, PriceCount, ixs) == 0 ==> PriceSet(policy, ixs).None?
  {
    if ixs != [] {
      TotalFromFront(policy, PriceCount, ixs);
      FeeMeasures(policy, ixs[0]);
      PriceAbsent(policy, ixs[1..]);
    }
  }

  // ---- the bounds --------------------------------------------------------------------------------

  /** The fee bounds: a limit times a price, in micro-lamports, stays under its ceilings in lamports. */
  predicate WithinFees(policy: Policy, limit: nat, price: nat, native: nat) {
    && limit <= 9_007_199_254_740_991 && limit <= policy.maxComputeUnitLimit
    && price <= policy.maxComputeUnitPrice
    && limit * price <= policy.maxPriorityFee * 1_000_000
    && (policy.maxPriorityFeeBps.Some? && native > 0 ==>
          limit * price <= native * policy.maxPriorityFeeBps.value / 10_000 * 1_000_000)
  }

  lemma CeilingMeans(cost: nat, bound: int)
    ensures (cost + 999_999) / 1_000_000 <= bound <==> cost <= bound * 1_000_000
  {
  }

  lemma FeesMean(policy: Policy, limit: nat, price: nat, native: nat)
    ensures FeesOk(policy, limit, price, native) <==> WithinFees(policy, limit, price, native)
  {
    CeilingMeans(limit * price, policy.maxPriorityFee);
    if policy.maxPriorityFeeBps.Some? && native > 0 {
      CeilingMeans(limit * price, native * policy.maxPriorityFeeBps.value / 10_000);
    }
  }

  predicate Spends(policy: Policy, ixs: seq<Instruction>, asset: string) {
    exists i | 0 <= i < |ixs| :: AssetOf(policy, ixs[i]) == Some(asset)
  }

  lemma {:induction false} SpendsIsTouched(policy: Policy, ixs: seq<Instruction>, asset: string)
    ensures Spends(policy, ixs, asset) <==> Total(policy, Touches(asset), ixs) > 0
  {
    if ixs != [] {
      var n := |ixs| - 1;
      SpendsIsTouched(policy, ixs[..n], asset);
      assert forall i | 0 <= i < n :: ixs[i] == ixs[..n][i];
      if Spends(policy, ixs, asset) && AssetOf(policy, ixs[n]) != Some(asset) {
        var i :| 0 <= i < |ixs| && AssetOf(policy, ixs[i]) == Some(asset);
        assert AssetOf(policy, ixs[..n][i]) == Some(asset);
      }
    }
  }

  /** Every asset spent has a cap and stays within it. */
  ghost predicate WithinCaps(policy: Policy, ixs: seq<Instruction>)
    requires AllFit(policy, ixs)
  {
    forall asset: string | Spends(policy, ixs, asset) :: asset in policy.caps && Spent(policy, ixs, asset) <= policy.caps[asset]
  }

  lemma CapsMean(policy: Policy, ixs: seq<Instruction>)
    requires AllFit(policy, ixs)
    ensures CapsOk(policy, ixs) <==> WithinCaps(policy, ixs)
  {
    forall asset: string
      ensures CapOk(policy, asset, ixs) <==>
        (Spends(policy, ixs, asset) ==> asset in policy.caps && Spent(policy, ixs, asset) <= policy.caps[asset])
    {
      SpendsIsTouched(policy, ixs, asset);
      SpentIsTotal(policy, ixs, asset);
    }
  }

  /**
   * What is accepted, byte by byte: the header within its limits; every instruction under the rule that applies to
   * it, its amount in its data and its mint the rule's asset; at most one limit and one price; the fee they come to
   * within its ceilings; and the sum of each asset's amounts, worth what their bytes are worth, within its cap.
   */
  lemma AcceptsMeans(d: Decoded, policy: Policy, payer: string)
    ensures Accepts(d, policy, payer) <==>
      && HeaderOk(d, policy, payer)
      && AllFit(policy, d.instructions)
      && AtMostOne(policy, d.instructions, "02") && AtMostOne(policy, d.instructions, "03")
      && WithinFees(policy, LimitInForce(policy, d.instructions), PriceInForce(policy, d.instructions),
                    Spent(policy, d.instructions, "native"))
      && WithinCaps(policy, d.instructions)
  {
    var ixs := d.instructions;
    forall i | 0 <= i < |ixs|
      ensures LocalError(policy, ixs[i]).None? <==>
        RuleFor(policy, ixs[i]).Some? && FitsRule(ixs[i], RuleFor(policy, ixs[i]).value)
    {
      InstructionMeans(policy, ixs[i]);
    }
    if AllFit(policy, ixs) {
      CountsMean(policy, ixs);
      if Total(policy, LimitCount, ixs) <= 1 && Total(policy, PriceCount, ixs) <= 1 {
        LimitMeans(policy, ixs);
        PriceMeans(policy, ixs);
        SpentIsTotal(policy, ixs, "native");
        FeesMean(policy, UnitLimit(policy, ixs), Total(policy, PriceValue, ixs), Spent(policy, ixs, "native"));
        CapsMean(policy, ixs);
      }
    }
  }

  /**
   * What is reported of an accepted transaction: for each asset exactly the sum of the amounts spent of it, worth
   * what their bytes are worth; so a transaction with one spend reports the worth of that one field.
   */
  lemma ReportedIsSpent(policy: Policy, ixs: seq<Instruction>, spend: map<string, nat>)
    requires AllFit(policy, ixs) && SpendIs(spend, policy, ixs)
    ensures forall asset: string :: asset in spend <==> Spends(policy, ixs, asset)
    ensures forall asset | asset in spend :: spend[asset] == Spent(policy, ixs, asset)
    ensures |ixs| == 1 && RuleFor(policy, ixs[0]).value.effect.SpendEffect? ==>
      var e := RuleFor(policy, ixs[0]).value.effect;
      spend == map[e.asset := Worth(ixs[0].data, e.amountOffset, e.wide)]
  {
    forall asset: string
      ensures asset in spend <==> Spends(policy, ixs, asset)
      ensures asset in spend ==> spend[asset] == Spent(policy, ixs, asset)
    {
      SpendsIsTouched(policy, ixs, asset);
      SpentIsTotal(policy, ixs, asset);
    }
    if |ixs| == 1 && RuleFor(policy, ixs[0]).value.effect.SpendEffect? {
      var e := RuleFor(policy, ixs[0]).value.effect;
      assert AssetOf(policy, ixs[0]) == Some(e.asset);
      assert Spent(policy, ixs, e.asset) == SpendOfOne(policy, ixs[0], e.asset) + Spent(policy, ixs[1..], e.asset);
      assert spend.Keys == {e.asset};
    }
  }
}
