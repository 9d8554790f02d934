/**
 * The signer's own policy (src/signer/policy.ts): the loop over decoded instructions, proved to be an
 * order-free statement about them.
 */
module SignPolicy {
  import opened Options
  import opened Basics

  const DEFAULT_UNITS_PER_INSTRUCTION := 200_000
  const MAX_UNITS_PER_TRANSACTION := 1_400_000
  const SET_UNIT_LIMIT := "02"
  const SET_UNIT_PRICE := "03"
  const NATIVE_ASSET := "native"

  /** A decoded instruction; an account that resolves through a lookup table is None. */
  datatype Instruction = Instruction(
    programId: string,
    data: seq<byte>,
    dataHex: string,
    accounts: seq<Option<string>>)

  datatype Effect =
    | NoEffect
    | FeeEffect
    | SpendEffect(asset: string, amountOffset: nat, wide: bool, mintAccountIndex: Option<nat>)

  datatype Rule = Rule(programId: string, discriminator: string, effect: Effect)

  datatype Policy = Policy(
    feePayers: seq<string>,
    programs: seq<Rule>,
    caps: map<string, int>,
    maxInstructions: int,
    maxAccountKeys: int,
    maxRequiredSignatures: int,
    maxComputeUnitLimit: int,
    maxComputeUnitPrice: int,
    maxPriorityFee: int,
    maxPriorityFeeBps: Option<nat>,
    addressLookupTables: seq<string>)

  datatype Decoded = Decoded(
    feePayer: string,
    numRequiredSignatures: int,
    accountKeys: int,
    lookups: seq<string>,
    instructions: seq<Instruction>)

  datatype Error =
    | BadFeePayer | TooManySigners | TooManyAccountKeys | TooManyInstructions | BadLookup
    | UnknownProgram | UnknownInstruction | UnreadableSpend | MintMissing | MintMismatch
    | ComputeUnits | ComputeUnitPrice | PriorityFee | CapMissing | SpendCap

  datatype Evaluation =
    | Accepted(spend: map<string, nat>, computeUnitLimit: nat, unitPrice: nat, priorityFee: nat)
    | Refused(error: Error)

  // ---- amounts -----------------------------------------------------------------------------------

  /** The little-endian value of bytes. */
  function LittleEndian(bytes: seq<byte>): nat {
    if bytes == [] then 0 else bytes[0] as nat + 256 * LittleEndian(bytes[1..])
  }

  /** Four or eight bytes at an offset; None where they run past the data. */
  function ReadAmount(data: seq<byte>, offset: nat, wide: bool): Option<nat> {
    var width := if wide then 8 else 4;
    if offset + width > |data| then None else Some(LittleEndian(data[offset..offset + width]))
  }

  // ---- the rule that applies ---------------------------------------------------------------------

  predicate Matches(rule: Rule, programId: string, dataHex: string) {
    rule.programId == programId && rule.discriminator <= dataHex
  }

  /** The longest match among the rules, the earlier one on a tie. */
  function BestRule(rules: seq<Rule>, programId: string, dataHex: string): Option<Rule> {
    if rules == [] then None
    else
      var best := BestRule(rules[..|rules| - 1], programId, dataHex);
      var last := rules[|rules| - 1];
      if Matches(last, programId, dataHex) && (best.None? || |last.discriminator| > |best.value.discriminator|)
      then Some(last) else best
  }

  method MatchRule(rules: seq<Rule>, programId: string, dataHex: string)
    returns (best: Option<Rule>, programAllowed: bool)
    ensures best == BestRule(rules, programId, dataHex)
    ensures programAllowed <==> exists i | 0 <= i < |rules| :: rules[i].programId == programId
    ensures best.Some? ==> best.value in rules && Matches(best.value, programId, dataHex)
    ensures forall i | 0 <= i < |rules| && Matches(rules[i], programId, dataHex) ::
              best.Some? && |rules[i].discriminator| <= |best.value.discriminator|
  {
    best, programAllowed := None, false;
    for n := 0 to |rules|
      invariant best == BestRule(rules[..n], programId, dataHex)
      invariant programAllowed <==> exists i | 0 <= i < n :: rules[i].programId == programId
      invariant best.Some? ==> best.value in rules && Matches(best.value, programId, dataHex)
      invariant forall i | 0 <= i < n && Matches(rules[i], programId, dataHex) ::
                  best.Some? && |rules[i].discriminator| <= |best.value.discriminator|
    {
      assert rules[..n + 1][..n] == rules[..n];
      var rule := rules[n];
      if rule.programId == programId {
        programAllowed := true;
        if rule.discriminator <= dataHex && (best.None? || |rule.discriminator| > |best.value.discriminator|) {
          best := Some(rule);
        }
      }
    }
    assert rules[..|rules|] == rules;
  }

  /** No two rules for one (program, discriminator) pair: what loading a policy file enforces. */
  predicate DistinctRules(rules: seq<Rule>) {
    forall i, j | 0 <= i < j < |rules| ::
      rules[i].programId != rules[j].programId || rules[i].discriminator != rules[j].discriminator
  }

  method CheckDuplicates(rules: seq<Rule>) returns (ok: bool)
    ensures ok == DistinctRules(rules)
  {
    var seen: set<(string, string)> := {};
    for n := 0 to |rules|
      invariant DistinctRules(rules[..n])
      invariant seen == set i | 0 <= i < n :: (rules[i].programId, rules[i].discriminator)
    {
      var key := (rules[n].programId, rules[n].discriminator);
      if key in seen {
        return false;
      }
      seen := seen + {key};
    }
    assert rules[..|rules|] == rules;
    return true;
  }

  lemma {:induction false} BestIsLongest(rules: seq<Rule>, programId: string, dataHex: string)
    ensures var best := BestRule(rules, programId, dataHex);
      && (best.Some? ==> best.value in rules && Matches(best.value, programId, dataHex))
      && forall i | 0 <= i < |rules| && Matches(rules[i], programId, dataHex) ::
           best.Some? && |rules[i].discriminator| <= |best.value.discriminator|
  {
    if rules != [] {
      BestIsLongest(rules[..|rules| - 1], programId, dataHex);
    }
  }

  /** Duplicate-free rules name at most one rule per instruction, whatever order they are listed in. */
  lemma BestIgnoresOrder(a: seq<Rule>, b: seq<Rule>, programId: string, dataHex: string)
    requires DistinctRules(a) && multiset(a) == multiset(b)
    ensures BestRule(a, programId, dataHex) == BestRule(b, programId, dataHex)
  {
    BestIsLongest(a, programId, dataHex);
    BestIsLongest(b, programId, dataHex);
    var x, y := BestRule(a, programId, dataHex), BestRule(b, programId, dataHex);
    if x.Some? {
      assert x.value in multiset(a);
      assert x.value in b;
    }
    if y.Some? {
      assert y.value in multiset(b);
      assert y.value in a;
      var i :| 0 <= i < |a| && a[i] == x.value;
      var j :| 0 <= j < |a| && a[j] == y.value;
      assert x.value.discriminator == dataHex[..|x.value.discriminator|];
      assert y.value.discriminator == dataHex[..|y.value.discriminator|];
      assert i == j;
    }
  }

  // ---- what an instruction adds ------------------------------------------------------------------

  function RuleFor(policy: Policy, ix: Instruction): Option<Rule> {
    BestRule(policy.programs, ix.programId, ix.dataHex)
  }

  /** The quantities the loop accumulates. */
  datatype Measure = SpendOf(asset: string) | Touches(asset: string) | LimitCount | LimitValue | PriceCount | PriceValue

  function AmountOr0(data: seq<byte>, offset: nat, wide: bool): nat {
    var amount := ReadAmount(data, offset, wide);
    if amount.Some? then amount.value else 0
  }

  function Measured(policy: Policy, m: Measure, ix: Instruction): nat {
    var rule := RuleFor(policy, ix);
    if rule.None? then 0
    else
      match (m, rule.value.effect)
      case (SpendOf(asset), SpendEffect(a, offset, wide, _)) => if a == asset then AmountOr0(ix.data, offset, wide) else 0
      case (Touches(asset), SpendEffect(a, _, _, _)) => if a == asset then 1 else 0
      case (LimitCount, FeeEffect) => if rule.value.discriminator == SET_UNIT_LIMIT then 1 else 0
      case (LimitValue, FeeEffect) => if rule.value.discriminator == SET_UNIT_LIMIT then AmountOr0(ix.data, 1, false) else 0
      case (PriceCount, FeeEffect) => if rule.value.discriminator == SET_UNIT_PRICE then 1 else 0
      case (PriceValue, FeeEffect) => if rule.value.discriminator == SET_UNIT_PRICE then AmountOr0(ix.data, 1, true) else 0
      case _ => 0
  }

  /** The sum of a quantity over the instructions. */
  function Total(policy: Policy, m: Measure, ixs: seq<Instruction>): nat {
    if ixs == [] then 0 else Total(policy, m, ixs[..|ixs| - 1]) + Measured(policy, m, ixs[|ixs| - 1])
  }

  function MintError(accounts: seq<Option<string>>, asset: string, index: Option<nat>): Option<Error> {
    if index.None? then None
    else if index.value >= |accounts| then Some(MintMissing)
    else if accounts[index.value] != Some(asset) then Some(MintMismatch)
    else None
  }

  /** What is wrong with an instruction on its own. */
  function LocalError(policy: Policy, ix: Instruction): Option<Error> {
    if forall i | 0 <= i < |policy.programs| :: policy.programs[i].programId != ix.programId then Some(UnknownProgram)
    else
      var rule := RuleFor(policy, ix);
      if rule.None? then Some(UnknownInstruction)
      else
        match rule.value.effect
        case NoEffect => None
        case FeeEffect =>
          if rule.value.discriminator == SET_UNIT_LIMIT && ReadAmount(ix.data, 1, false).None? then Some(UnreadableSpend)
          else if rule.value.discriminator == SET_UNIT_PRICE && ReadAmount(ix.data, 1, true).None? then Some(UnreadableSpend)
          else None
        case SpendEffect(asset, offset, wide, index) =>
          if MintError(ix.accounts, asset, index).Some? then MintError(ix.accounts, asset, index)
          else if ReadAmount(ix.data, offset, wide).None? then Some(UnreadableSpend)
          else None
  }

  // ---- acceptance, free of order -----------------------------------------------------------------

  function UnitLimit(policy: Policy, ixs: seq<Instruction>): nat {
    if Total(policy, LimitCount, ixs) > 0 then Total(policy, LimitValue, ixs)
    else if DEFAULT_UNITS_PER_INSTRUCTION * |ixs| < MAX_UNITS_PER_TRANSACTION
    then DEFAULT_UNITS_PER_INSTRUCTION * |ixs| else MAX_UNITS_PER_TRANSACTION
  }

  /** The priority fee: the exact ceiling of limit times price over a million. */
  function Fee(limit: nat, price: nat): nat {
    (limit * price + 999_999) / 1_000_000
  }

  lemma FeeIsCeiling(limit: nat, price: nat)
    ensures 1_000_000 * Fee(limit, price) >= limit * price
    ensures Fee(limit, price) > 0 ==> 1_000_000 * (Fee(limit, price) - 1) < limit * price
  {
    var cost := limit * price;
    assert (cost + 999_999) / 1_000_000 * 1_000_000 <= cost + 999_999 < (cost + 999_999) / 1_000_000 * 1_000_000 + 1_000_000;
  }

  /** The first complaint about the transaction as a whole. */
  function HeaderError(d: Decoded, policy: Policy, payer: string): Option<Error> {
    if d.feePayer != payer || d.feePayer !in policy.feePayers then Some(BadFeePayer)
    else if d.numRequiredSignatures > policy.maxRequiredSignatures then Some(TooManySigners)
    else if d.accountKeys > policy.maxAccountKeys then Some(TooManyAccountKeys)
    else if |d.instructions| > policy.maxInstructions then Some(TooManyInstructions)
    else if exists i | 0 <= i < |d.lookups| :: d.lookups[i] !in policy.addressLookupTables then Some(BadLookup)
    else None
  }

  /** What is wrong with an instruction after the ones before it: a second fee instruction of a kind comes first. */
  function OneError(policy: Policy, before: seq<Instruction>, ix: Instruction): Option<Error> {
    if Measured(policy, LimitCount, ix) == 1 && Total(policy, LimitCount, before) > 0 then Some(ComputeUnits)
    else if Measured(policy, PriceCount, ix) == 1 && Total(policy, PriceCount, before) > 0 then Some(ComputeUnitPrice)
    else LocalError(policy, ix)
  }

  /** The complaint about the earliest instruction that draws one. */
  function InstructionError(policy: Policy, ixs: seq<Instruction>): Option<Error> {
    if ixs == [] then None
    else
      var before := ixs[..|ixs| - 1];
      var earlier := InstructionError(policy, before);
      if earlier.Some? then earlier else OneError(policy, before, ixs[|ixs| - 1])
  }

  function FeeError(policy: Policy, limit: nat, price: nat, native: nat): Option<Error> {
    if limit > MAX_SAFE_INTEGER || limit > policy.maxComputeUnitLimit then Some(ComputeUnits)
    else if price > policy.maxComputeUnitPrice then Some(ComputeUnitPrice)
    else if Fee(limit, price) > policy.maxPriorityFee then Some(PriorityFee)
    else if policy.maxPriorityFeeBps.Some? && native > 0 &&
            Fee(limit, price) > native * policy.maxPriorityFeeBps.value / 10_000 then Some(PriorityFee)
    else None
  }

  predicate HeaderOk(d: Decoded, policy: Policy, payer: string) {
    && d.feePayer == payer && d.feePayer in policy.feePayers
    && d.numRequiredSignatures <= policy.maxRequiredSignatures
    && d.accountKeys <= policy.maxAccountKeys
    && |d.instructions| <= policy.maxInstructions
    && forall i | 0 <= i < |d.lookups| :: d.lookups[i] in policy.addressLookupTables
  }

  predicate InstructionsOk(policy: Policy, ixs: seq<Instruction>) {
    && (forall i | 0 <= i < |ixs| :: LocalError(policy, ixs[i]).None?)
    && Total(policy, LimitCount, ixs) <= 1 && Total(policy, PriceCount, ixs) <= 1
  }

  predicate FeesOk(policy: Policy, limit: nat, price: nat, native: nat) {
    && limit <= MAX_SAFE_INTEGER && limit <= policy.maxComputeUnitLimit
    && price <= policy.maxComputeUnitPrice
    && Fee(limit, price) <= policy.maxPriorityFee
    && (policy.maxPriorityFeeBps.Some? && native > 0 ==>
          Fee(limit, price) <= native * policy.maxPriorityFeeBps.value / 10_000)
  }

  predicate CapOk(policy: Policy, asset: string, ixs: seq<Instruction>) {
    Total(policy, Touches(asset), ixs) > 0 ==>
      asset in policy.caps && Total(policy, SpendOf(asset), ixs) <= policy.caps[asset]
  }

  ghost predicate CapsOk(policy: Policy, ixs: seq<Instruction>) {
    forall asset: string :: CapOk(policy, asset, ixs)
  }

  ghost predicate Accepts(d: Decoded, policy: Policy, payer: string) {
    && HeaderOk(d, policy, payer)
    && InstructionsOk(policy, d.instructions)
    && FeesOk(policy, UnitLimit(policy, d.instructions), Total(policy, PriceValue, d.instructions),
              Total(policy, SpendOf(NATIVE_ASSET), d.instructions))
    && CapsOk(policy, d.instructions)
  }

  /** What the spend map must hold after some instructions: each touched asset's total, and nothing else. */
  ghost predicate SpendIs(spend: map<string, nat>, policy: Policy, ixs: seq<Instruction>) {
    && (forall asset | asset in spend :: Total(policy, Touches(asset), ixs) > 0 && spend[asset] == Total(policy, SpendOf(asset), ixs))
    && (forall asset | Total(policy, Touches(asset), ixs) > 0 :: asset in spend)
  }

  // ---- the evaluation ----------------------------------------------------------------------------

  lemma {:induction false} UntouchedIsZero(policy: Policy, asset: string, ixs: seq<Instruction>)
    requires Total(policy, Touches(asset), ixs) == 0
    ensures Total(policy, SpendOf(asset), ixs) == 0
  {
    if ixs != [] {
      UntouchedIsZero(policy, asset, ixs[..|ixs| - 1]);
    }
  }

  lemma {:induction false} UncountedIsZero(policy: Policy, ixs: seq<Instruction>)
    ensures Total(policy, LimitCount, ixs) == 0 ==> Total(policy, LimitValue, ixs) == 0
    ensures Total(policy, PriceCount, ixs) == 0 ==> Total(policy, PriceValue, ixs) == 0
  {
    if ixs != [] {
      UncountedIsZero(policy, ixs[..|ixs| - 1]);
    }
  }

  /** The asset an instruction spends. */
  function AssetOf(policy: Policy, ix: Instruction): Option<string> {
    var rule := RuleFor(policy, ix);
    if rule.Some? && rule.value.effect.SpendEffect? then Some(rule.value.effect.asset) else None
  }

  function Noted(order: seq<string>, asset: Option<string>): seq<string> {
    if asset.None? || asset.value in order then order else order + [asset.value]
  }

  /** The assets spent, in the order they are first spent. */
  function TouchOrder(policy: Policy, ixs: seq<Instruction>): seq<string> {
    if ixs == [] then [] else Noted(TouchOrder(policy, ixs[..|ixs| - 1]), AssetOf(policy, ixs[|ixs| - 1]))
  }

  lemma {:induction false} NotedWhenTouched(policy: Policy, ixs: seq<Instruction>, asset: string)
    ensures asset in TouchOrder(policy, ixs) <==> Total(policy, Touches(asset), ixs) > 0
  {
    if ixs != [] {
      NotedWhenTouched(policy, ixs[..|ixs| - 1], asset);
    }
  }

  lemma TouchAppend(policy: Policy, before: seq<Instruction>, ix: Instruction)
    ensures TouchOrder(policy, before + [ix]) == Noted(TouchOrder(policy, before), AssetOf(policy, ix))
  {
    assert (before + [ix])[..|before|] == before;
  }

  /** The accumulators after a prefix of the instructions; `order` is the order the spend map iterates in. */
  datatype Loop = Loop(spend: map<string, nat>, order: seq<string>, limit: Option<nat>, price: Option<nat>)

  ghost predicate LoopIs(l: Loop, policy: Policy, ixs: seq<Instruction>) {
    && SpendIs(l.spend, policy, ixs)
    && l.order == TouchOrder(policy, ixs)
    && Total(policy, LimitCount, ixs) == (if l.limit.Some? then 1 else 0)
    && (l.limit.Some? ==> l.limit.value == Total(policy, LimitValue, ixs))
    && Total(policy, PriceCount, ixs) == (if l.price.Some? then 1 else 0)
    && (l.price.Some? ==> l.price.value == Total(policy, PriceValue, ixs))
  }

  lemma TotalAppend(policy: Policy, m: Measure, before: seq<Instruction>, ix: Instruction)
    ensures Total(policy, m, before + [ix]) == Total(policy, m, before) + Measured(policy, m, ix)
  {
    assert (before + [ix])[..|before|] == before;
  }

  lemma SpendUnmoved(policy: Policy, spend: map<string, nat>, before: seq<Instruction>, ix: Instruction)
    requires SpendIs(spend, policy, before)
    requires RuleFor(policy, ix).Some? && !RuleFor(policy, ix).value.effect.SpendEffect?
    ensures SpendIs(spend, policy, before + [ix])
  {
    forall asset: string
      ensures Total(policy, Touches(asset), before + [ix]) == Total(policy, Touches(asset), before)
      ensures Total(policy, SpendOf(asset), before + [ix]) == Total(policy, SpendOf(asset), before)
    {
      TotalAppend(policy, Touches(asset), before, ix);
      TotalAppend(policy, SpendOf(asset), before, ix);
    }
  }

  function AddTo(spend: map<string, nat>, asset: string, amount: nat): map<string, nat> {
    spend[asset := (if asset in spend then spend[asset] else 0) + amount]
  }

  lemma SpendMoved(policy: Policy, spend: map<string, nat>, before: seq<Instruction>, ix: Instruction)
    requires SpendIs(spend, policy, before)
    requires RuleFor(policy, ix).Some? && RuleFor(policy, ix).value.effect.SpendEffect?
    requires var e := RuleFor(policy, ix).value.effect; ReadAmount(ix.data, e.amountOffset, e.wide).Some?
    ensures var e := RuleFor(policy, ix).value.effect;
      SpendIs(AddTo(spend, e.asset, ReadAmount(ix.data, e.amountOffset, e.wide).value), policy, before + [ix])
  {
    forall asset: string
      ensures Total(policy, Touches(asset), before + [ix]) == Total(policy, Touches(asset), before) + Measured(policy, Touches(asset), ix)
      ensures Total(policy, SpendOf(asset), before + [ix]) == Total(policy, SpendOf(asset), before) + Measured(policy, SpendOf(asset), ix)
    {
      TotalAppend(policy, Touches(asset), before, ix);
      TotalAppend(policy, SpendOf(asset), before, ix);
    }
    AbsentIsZero(policy, RuleFor(policy, ix).value.effect.asset, before, spend);
  }

  lemma AbsentIsZero(policy: Policy, asset: string, ixs: seq<Instruction>, spend: map<string, nat>)
    requires SpendIs(spend, policy, ixs)
    ensures asset !in spend ==> Total(policy, SpendOf(asset), ixs) == 0
  {
    if asset !in spend {
      UntouchedIsZero(policy, asset, ixs);
    }
  }

  lemma FeesAppend(policy: Policy, before: seq<Instruction>, ix: Instruction)
    ensures forall m | m in {LimitCount, LimitValue, PriceCount, PriceValue} ::
              Total(policy, m, before + [ix]) == Total(policy, m, before) + Measured(policy, m, ix)
  {
    TotalAppend(policy, LimitCount, before, ix);
    TotalAppend(policy, LimitValue, before, ix);
    TotalAppend(policy, PriceCount, before, ix);
    TotalAppend(policy, PriceValue, before, ix);
  }

  /** The fee branch: a second limit or price is refused before its amount is read. */
  method AccumulateFee(policy: Policy, ix: Instruction, rule: Rule, l: Loop, ghost before: seq<Instruction>)
    returns (error: Option<Error>, next: Loop)
    requires LoopIs(l, policy, before) && RuleFor(policy, ix) == Some(rule) && rule.effect.FeeEffect?
    requires exists i | 0 <= i < |policy.programs| :: policy.programs[i].programId == ix.programId
    ensures error == OneError(policy, before, ix)
    ensures error.None? ==> LoopIs(next, policy, before + [ix])
  {
    next, error := l, None;
    SpendUnmoved(policy, l.spend, before, ix);
    FeesAppend(policy, before, ix);
    TouchAppend(policy, before, ix);
    UncountedIsZero(policy, before);
    if rule.discriminator == SET_UNIT_LIMIT {
      if l.limit.Some? {
        return Some(ComputeUnits), l;
      }
      var amount := ReadAmount(ix.data, 1, false);
      if amount.None? {
        return Some(UnreadableSpend), l;
      }
      next := l.(limit := amount);
    } else if rule.discriminator == SET_UNIT_PRICE {
      if l.price.Some? {
        return Some(ComputeUnitPrice), l;
      }
      var amount := ReadAmount(ix.data, 1, true);
      if amount.None? {
        return Some(UnreadableSpend), l;
      }
      next := l.(price := amount);
    }
  }

  /** The loop body for one instruction. */
  method Accumulate(policy: Policy, ix: Instruction, l: Loop, ghost before: seq<Instruction>)
    returns (error: Option<Error>, next: Loop)
    requires LoopIs(l, policy, before)
    ensures error == OneError(policy, before, ix)
    ensures error.None? ==> LoopIs(next, policy, before + [ix])
  {
    var best, programAllowed := MatchRule(policy.programs, ix.programId, ix.dataHex);
    if !programAllowed {
      return Some(UnknownProgram), l;
    }
    if best.None? {
      return Some(UnknownInstruction), l;
    }
    var effect := best.value.effect;
    if effect.FeeEffect? {
      error, next := AccumulateFee(policy, ix, best.value, l, before);
      return;
    }
    FeesAppend(policy, before, ix);
    TouchAppend(policy, before, ix);
    if effect.NoEffect? {
      SpendUnmoved(policy, l.spend, before, ix);
      return None, l;
    }
    if MintError(ix.accounts, effect.asset, effect.mintAccountIndex).Some? {
      return MintError(ix.accounts, effect.asset, effect.mintAccountIndex), l;
    }
    var amount := ReadAmount(ix.data, effect.amountOffset, effect.wide);
    if amount.None? {
      return Some(UnreadableSpend), l;
    }
    SpendMoved(policy, l.spend, before, ix);
    NotedWhenTouched(policy, before, effect.asset);
    return None, l.(spend := AddTo(l.spend, effect.asset, amount.value),
                    order := if effect.asset in l.spend then l.order else l.order + [effect.asset]);
  }

  lemma {:induction false} FirstErrorStays(policy: Policy, ixs: seq<Instruction>, n: nat)
    requires n <= |ixs| && InstructionError(policy, ixs[..n]).Some?
    ensures InstructionError(policy, ixs) == InstructionError(policy, ixs[..n])
    decreases |ixs|
  {
    if n == |ixs| {
      assert ixs[..n] == ixs;
    } else {
      var before := ixs[..|ixs| - 1];
      assert before[..n] == ixs[..n];
      FirstErrorStays(policy, before, n);
    }
  }

  /** The loop over the instructions. */
  method Scan(policy: Policy, ixs: seq<Instruction>) returns (error: Option<Error>, l: Loop)
    ensures error == InstructionError(policy, ixs)
    ensures error.None? ==> LoopIs(l, policy, ixs)
  {
    l := Loop(map[], [], None, None);
    for i := 0 to |ixs|
      invariant InstructionError(policy, ixs[..i]).None?
      invariant LoopIs(l, policy, ixs[..i])
    {
      assert ixs[..i + 1][..i] == ixs[..i] && ixs[..i + 1] == ixs[..i] + [ixs[i]];
      error, l := Accumulate(policy, ixs[i], l, ixs[..i]);
      if error.Some? {
        FirstErrorStays(policy, ixs, i + 1);
        return;
      }
    }
    assert ixs[..|ixs|] == ixs;
    error := None;
  }

  method CheckHeader(d: Decoded, policy: Policy, payer: string) returns (error: Option<Error>)
    ensures error == HeaderError(d, policy, payer)
  {
    if d.feePayer != payer || d.feePayer !in policy.feePayers {
      return Some(BadFeePayer);
    }
    if d.numRequiredSignatures > policy.maxRequiredSignatures {
      return Some(TooManySigners);
    }
    if d.accountKeys > policy.maxAccountKeys {
      return Some(TooManyAccountKeys);
    }
    if |d.instructions| > policy.maxInstructions {
      return Some(TooManyInstructions);
    }
    for i := 0 to |d.lookups|
      invariant forall j | 0 <= j < i :: d.lookups[j] in policy.addressLookupTables
    {
      if d.lookups[i] !in policy.addressLookupTables {
        return Some(BadLookup);
      }
    }
    return None;
  }

  /** What is wrong with the total spent of an asset. */
  function CapError(policy: Policy, asset: string, ixs: seq<Instruction>): Option<Error> {
    if asset !in policy.caps then Some(CapMissing)
    else if Total(policy, SpendOf(asset), ixs) > policy.caps[asset] then Some(SpendCap)
    else None
  }

  /** Of the first `n` instructions, the earliest whose asset is spent without a cap or beyond it decides. */
  function FirstCapError(policy: Policy, ixs: seq<Instruction>, n: nat): Option<Error>
    requires n <= |ixs|
  {
    if n == 0 then None
    else
      var earlier := FirstCapError(policy, ixs, n - 1);
      var asset := AssetOf(policy, ixs[n - 1]);
      if earlier.Some? || asset.None? then earlier else CapError(policy, asset.value, ixs)
  }

  /** The first complaint about a list of assets. */
  function ErrorAmong(policy: Policy, order: seq<string>, ixs: seq<Instruction>): Option<Error> {
    if order == [] then None
    else
      var earlier := ErrorAmong(policy, order[..|order| - 1], ixs);
      if earlier.Some? then earlier else CapError(policy, order[|order| - 1], ixs)
  }

  lemma {:induction false} NoErrorAmong(policy: Policy, order: seq<string>, ixs: seq<Instruction>)
    ensures ErrorAmong(policy, order, ixs).None? <==> forall asset | asset in order :: CapError(policy, asset, ixs).None?
  {
    if order != [] {
      var front, last := order[..|order| - 1], order[|order| - 1];
      NoErrorAmong(policy, front, ixs);
      assert order == front + [last];
    }
  }

  lemma {:induction false} ErrorStays(policy: Policy, order: seq<string>, n: nat, ixs: seq<Instruction>)
    requires n <= |order| && ErrorAmong(policy, order[..n], ixs).Some?
    ensures ErrorAmong(policy, order, ixs) == ErrorAmong(policy, order[..n], ixs)
    decreases |order|
  {
    if n == |order| {
      assert order[..n] == order;
    } else {
      var front := order[..|order| - 1];
      assert front[..n] == order[..n];
      ErrorStays(policy, front, n, ixs);
    }
  }

  lemma NotedError(policy: Policy, order: seq<string>, asset: Option<string>, ixs: seq<Instruction>)
    ensures ErrorAmong(policy, Noted(order, asset), ixs)
         == var earlier := ErrorAmong(policy, order, ixs);
            if earlier.Some? || asset.None? then earlier else CapError(policy, asset.value, ixs)
  {
    if asset.Some? {
      if asset.value in order {
        NoErrorAmong(policy, order, ixs);
      } else {
        assert (order + [asset.value])[..|order|] == order;
      }
    }
  }

  /** Asking asset by asset in the order of first spending is asking instruction by instruction. */
  lemma {:induction false} AssetsInOrder(policy: Policy, ixs: seq<Instruction>, n: nat)
    requires n <= |ixs|
    ensures ErrorAmong(policy, TouchOrder(policy, ixs[..n]), ixs) == FirstCapError(policy, ixs, n)
  {
    if n > 0 {
      AssetsInOrder(policy, ixs, n - 1);
      var before := ixs[..n - 1];
      assert ixs[..n] == before + [ixs[n - 1]];
      TouchAppend(policy, before, ixs[n - 1]);
      NotedError(policy, TouchOrder(policy, before), AssetOf(policy, ixs[n - 1]), ixs);
    }
  }

  lemma CapsOkIffNoError(policy: Policy, ixs: seq<Instruction>)
    ensures FirstCapError(policy, ixs, |ixs|).None? <==> CapsOk(policy, ixs)
  {
    assert ixs[..|ixs|] == ixs;
    AssetsInOrder(policy, ixs, |ixs|);
    NoErrorAmong(policy, TouchOrder(policy, ixs), ixs);
    forall asset: string
      ensures CapOk(policy, asset, ixs) <==> (asset in TouchOrder(policy, ixs) ==> CapError(policy, asset, ixs).None?)
    {
      NotedWhenTouched(policy, ixs, asset);
    }
  }

  /** The loop over the spend map. */
  method CheckTotals(policy: Policy, spend: map<string, nat>, order: seq<string>, ghost ixs: seq<Instruction>)
    returns (error: Option<Error>)
    requires forall i | 0 <= i < |order| :: order[i] in spend && spend[order[i]] == Total(policy, SpendOf(order[i]), ixs)
    ensures error == ErrorAmong(policy, order, ixs)
  {
    for n := 0 to |order|
      invariant ErrorAmong(policy, order[..n], ixs).None?
    {
      assert order[..n + 1][..n] == order[..n];
      var asset := order[n];
      if asset !in policy.caps {
        ErrorStays(policy, order, n + 1, ixs);
        return Some(CapMissing);
      }
      if spend[asset] > policy.caps[asset] {
        ErrorStays(policy, order, n + 1, ixs);
        return Some(SpendCap);
      }
    }
    assert order[..|order|] == order;
    return None;
  }

  /** Every touched asset against its cap; the earliest instruction with a bad one decides the complaint. */
  method CheckCaps(policy: Policy, l: Loop, ghost ixs: seq<Instruction>) returns (error: Option<Error>)
    requires LoopIs(l, policy, ixs)
    ensures error == FirstCapError(policy, ixs, |ixs|)
    ensures error.None? <==> CapsOk(policy, ixs)
  {
    forall i | 0 <= i < |l.order|
      ensures l.order[i] in l.spend && l.spend[l.order[i]] == Total(policy, SpendOf(l.order[i]), ixs)
    {
      NotedWhenTouched(policy, ixs, l.order[i]);
    }
    error := CheckTotals(policy, l.spend, l.order, ixs);
    CapsOkIffNoError(policy, ixs);
    assert ixs[..|ixs|] == ixs;
    AssetsInOrder(policy, ixs, |ixs|);
  }

  /** The fee quantities of a whole transaction. */
  function FeeErrorOf(policy: Policy, ixs: seq<Instruction>): Option<Error> {
    FeeError(policy, UnitLimit(policy, ixs), Total(policy, PriceValue, ixs), Total(policy, SpendOf(NATIVE_ASSET), ixs))
  }

  /** Which refusal a transaction draws: the first complaint in the order header, instructions, fees, caps. */
  predicate Explains(error: Error, d: Decoded, policy: Policy, payer: string) {
    if HeaderError(d, policy, payer).Some? then HeaderError(d, policy, payer) == Some(error)
    else if InstructionError(policy, d.instructions).Some? then InstructionError(policy, d.instructions) == Some(error)
    else if FeeErrorOf(policy, d.instructions).Some? then FeeErrorOf(policy, d.instructions) == Some(error)
    else FirstCapError(policy, d.instructions, |d.instructions|) == Some(error)
  }

  method CheckFees(policy: Policy, l: Loop, ghost ixs: seq<Instruction>, count: nat)
    returns (error: Option<Error>, limit: nat, price: nat, fee: nat)
    requires LoopIs(l, policy, ixs) && count == |ixs|
    ensures error == FeeErrorOf(policy, ixs)
    ensures limit == UnitLimit(policy, ixs) && price == Total(policy, PriceValue, ixs) && fee == Fee(limit, price)
  {
    UncountedIsZero(policy, ixs);
    AbsentIsZero(policy, NATIVE_ASSET, ixs, l.spend);
    limit := if l.limit.Some? then l.limit.value
             else if DEFAULT_UNITS_PER_INSTRUCTION * count < MAX_UNITS_PER_TRANSACTION
             then DEFAULT_UNITS_PER_INSTRUCTION * count else MAX_UNITS_PER_TRANSACTION;
    price := if l.price.Some? then l.price.value else 0;
    fee := Fee(limit, price);
    if limit > MAX_SAFE_INTEGER || limit > policy.maxComputeUnitLimit {
      return Some(ComputeUnits), limit, price, fee;
    }
    if price > policy.maxComputeUnitPrice {
      return Some(ComputeUnitPrice), limit, price, fee;
    }
    if fee > policy.maxPriorityFee {
      return Some(PriorityFee), limit, price, fee;
    }
    if policy.maxPriorityFeeBps.Some? && NATIVE_ASSET in l.spend && l.spend[NATIVE_ASSET] > 0 {
      if fee > l.spend[NATIVE_ASSET] * policy.maxPriorityFeeBps.value / 10_000 {
        return Some(PriorityFee), limit, price, fee;
      }
    }
    error := None;
  }

  lemma {:induction false} NoErrorIffOk(policy: Policy, ixs: seq<Instruction>)
    ensures InstructionError(policy, ixs).None? <==> InstructionsOk(policy, ixs)
  {
    if ixs != [] {
      var before, ix := ixs[..|ixs| - 1], ixs[|ixs| - 1];
      NoErrorIffOk(policy, before);
      assert forall i | 0 <= i < |before| :: ixs[i] == before[i];
      if InstructionsOk(policy, before) && LocalError(policy, ix).None? {
        assert forall i | 0 <= i < |ixs| :: LocalError(policy, ixs[i]).None? by {
          assert forall i | 0 <= i < |before| :: LocalError(policy, before[i]).None?;
        }
      }
    }
  }

  lemma NoComplaintIffAccepts(d: Decoded, policy: Policy, payer: string)
    ensures Accepts(d, policy, payer) <==>
      HeaderError(d, policy, payer).None? && InstructionError(policy, d.instructions).None? &&
      FeeErrorOf(policy, d.instructions).None? && CapsOk(policy, d.instructions)
  {
    NoErrorIffOk(policy, d.instructions);
  }

  /**
   * The evaluation accepts exactly the transactions of the order-free statement, and then reports each touched
   * asset's total of little-endian amounts, the limit and price in force and the exact fee; a refusal names the
   * first complaint.
   */
  method EvaluatePolicy(d: Decoded, policy: Policy, payer: string) returns (r: Evaluation)
    ensures r.Accepted? <==> Accepts(d, policy, payer)
    ensures r.Refused? ==> Explains(r.error, d, policy, payer)
    ensures r.Accepted? ==>
      && SpendIs(r.spend, policy, d.instructions)
      && (forall asset | asset in r.spend :: asset in policy.caps && r.spend[asset] <= policy.caps[asset])
      && r.computeUnitLimit == UnitLimit(policy, d.instructions)
      && r.unitPrice == Total(policy, PriceValue, d.instructions)
      && r.priorityFee == Fee(r.computeUnitLimit, r.unitPrice)
  {
    NoComplaintIffAccepts(d, policy, payer);
    var error := CheckHeader(d, policy, payer);
    if error.Some? {
      return Refused(error.value);
    }
    var l;
    error, l := Scan(policy, d.instructions);
    if error.Some? {
      return Refused(error.value);
    }
    var limit, price, fee;
    error, limit, price, fee := CheckFees(policy, l, d.instructions, |d.instructions|);
    if error.Some? {
      return Refused(error.value);
    }
    error := CheckCaps(policy, l, d.instructions);
    if error.Some? {
      return Refused(error.value);
    }
    forall asset | asset in l.spend ensures asset in policy.caps && l.spend[asset] <= policy.caps[asset] {
      assert CapOk(policy, asset, d.instructions);
    }
    return Accepted(l.spend, limit, price, fee);
  }

  // ---- permutations and limits -------------------------------------------------------------------

  lemma {:induction false} TotalRemove(policy: Policy, m: Measure, ixs: seq<Instruction>, k: nat)
    requires k < |ixs|
    ensures Total(policy, m, ixs) == Total(policy, m, ixs[..k] + ixs[k + 1..]) + Measured(policy, m, ixs[k])
  {
    var n := |ixs| - 1;
    if k == n {
      assert ixs[..k] + ixs[k + 1..] == ixs[..n];
    } else {
      TotalRemove(policy, m, ixs[..n], k);
      var rest := ixs[..k] + ixs[k + 1..];
      assert rest[..|rest| - 1] == ixs[..n][..k] + ixs[..n][k + 1..];
    }
  }

  lemma WithoutOne(s: seq<Instruction>, k: nat)
    requires k < |s|
    ensures multiset(s[..k] + s[k + 1..]) == multiset(s) - multiset{s[k]}
  {
    assert s == s[..k] + [s[k]] + s[k + 1..];
    assert multiset(s) == multiset(s[..k]) + multiset{s[k]} + multiset(s[k + 1..]);
  }

  /** A permutation of a non-empty sequence holds its last element somewhere, and the rest permute too. */
  lemma TakeLast(a: seq<Instruction>, b: seq<Instruction>) returns (k: nat)
    requires a != [] && multiset(a) == multiset(b)
    ensures k < |b| && b[k] == a[|a| - 1]
    ensures multiset(a[..|a| - 1]) == multiset(b[..k] + b[k + 1..])
  {
    var n := |a| - 1;
    assert a[n] in multiset(b);
    k :| 0 <= k < |b| && b[k] == a[n];
    WithoutOne(a, n);
    WithoutOne(b, k);
    assert a[..n] + a[n + 1..] == a[..n];
  }

  lemma {:induction false} TotalIgnoresOrder(policy: Policy, m: Measure, a: seq<Instruction>, b: seq<Instruction>)
    requires multiset(a) == multiset(b)
    ensures Total(policy, m, a) == Total(policy, m, b)
    decreases |a|
  {
    if a == [] {
      assert |multiset(b)| == 0;
    } else {
      var k := TakeLast(a, b);
      TotalIgnoresOrder(policy, m, a[..|a| - 1], b[..k] + b[k + 1..]);
      TotalRemove(policy, m, b, k);
    }
  }

  lemma SameRulesSameTotals(p: Policy, q: Policy, m: Measure, ixs: seq<Instruction>)
    requires q == p.(programs := q.programs) && DistinctRules(p.programs) && multiset(p.programs) == multiset(q.programs)
    ensures Total(p, m, ixs) == Total(q, m, ixs)
  {
    if ixs != [] {
      SameRulesSameTotals(p, q, m, ixs[..|ixs| - 1]);
      SameRuleSameMeasure(p, q, m, ixs[|ixs| - 1]);
    }
  }

  lemma SameRuleSameMeasure(p: Policy, q: Policy, m: Measure, ix: Instruction)
    requires q == p.(programs := q.programs) && DistinctRules(p.programs) && multiset(p.programs) == multiset(q.programs)
    ensures Measured(p, m, ix) == Measured(q, m, ix)
    ensures LocalError(p, ix) == LocalError(q, ix)
  {
    BestIgnoresOrder(p.programs, q.programs, ix.programId, ix.dataHex);
    forall i | 0 <= i < |p.programs| ensures p.programs[i] in q.programs {
      assert p.programs[i] in multiset(q.programs);
    }
    forall i | 0 <= i < |q.programs| ensures q.programs[i] in p.programs {
      assert q.programs[i] in multiset(p.programs);
    }
  }

  lemma SameMembers(a: seq<Instruction>, b: seq<Instruction>)
    requires multiset(a) == multiset(b)
    ensures |a| == |b|
    ensures forall i | 0 <= i < |a| :: a[i] in b
    ensures forall i | 0 <= i < |b| :: b[i] in a
  {
    assert |multiset(a)| == |multiset(b)|;
    forall i | 0 <= i < |a| ensures a[i] in b {
      assert a[i] in multiset(b);
    }
    forall i | 0 <= i < |b| ensures b[i] in a {
      assert b[i] in multiset(a);
    }
  }

  /**
   * Order does not matter: permuting the instructions, and permuting duplicate-free rules, changes neither
   * acceptance nor any total.
   */
  lemma OrderDoesNotMatter(d: Decoded, e: Decoded, p: Policy, q: Policy, payer: string)
    requires e == d.(instructions := e.instructions) && multiset(d.instructions) == multiset(e.instructions)
    requires q == p.(programs := q.programs) && DistinctRules(p.programs) && multiset(p.programs) == multiset(q.programs)
    ensures Accepts(d, p, payer) <==> Accepts(e, q, payer)
    ensures forall m :: Total(p, m, d.instructions) == Total(q, m, e.instructions)
    ensures UnitLimit(p, d.instructions) == UnitLimit(q, e.instructions)
  {
    SameMembers(d.instructions, e.instructions);
    forall m ensures Total(p, m, d.instructions) == Total(q, m, e.instructions) {
      TotalIgnoresOrder(p, m, d.instructions, e.instructions);
      SameRulesSameTotals(p, q, m, e.instructions);
    }
    forall ix: Instruction ensures LocalError(p, ix) == LocalError(q, ix) {
      SameRuleSameMeasure(p, q, LimitCount, ix);
    }
    assert InstructionsOk(p, d.instructions) <==> InstructionsOk(q, e.instructions);
    forall asset: string ensures CapOk(p, asset, d.instructions) <==> CapOk(q, asset, e.instructions) {
    }
  }

  /** Every limit of `q` is at least as generous as that of `p`; the classified programs are the same. */
  predicate Raises(p: Policy, q: Policy) {
    && q.programs == p.programs
    && (forall payer | payer in p.feePayers :: payer in q.feePayers)
    && (forall table | table in p.addressLookupTables :: table in q.addressLookupTables)
    && (forall asset | asset in p.caps :: asset in q.caps && p.caps[asset] <= q.caps[asset])
    && p.maxInstructions <= q.maxInstructions && p.maxAccountKeys <= q.maxAccountKeys
    && p.maxRequiredSignatures <= q.maxRequiredSignatures
    && p.maxComputeUnitLimit <= q.maxComputeUnitLimit && p.maxComputeUnitPrice <= q.maxComputeUnitPrice
    && p.maxPriorityFee <= q.maxPriorityFee
    && (q.maxPriorityFeeBps.Some? ==> p.maxPriorityFeeBps.Some? && p.maxPriorityFeeBps.value <= q.maxPriorityFeeBps.value)
  }

  lemma {:induction false} TotalsDependOnRules(p: Policy, q: Policy, m: Measure, ixs: seq<Instruction>)
    requires q.programs == p.programs
    ensures Total(p, m, ixs) == Total(q, m, ixs)
  {
    if ixs != [] {
      TotalsDependOnRules(p, q, m, ixs[..|ixs| - 1]);
    }
  }

  lemma BpsMonotone(native: nat, low: nat, high: nat)
    requires low <= high
    ensures native * low / 10_000 <= native * high / 10_000
  {
    assert native * high - native * low == native * (high - low);
  }

  /** Raising any limit never turns an acceptance into a refusal. */
  lemma RaisingLimitsKeepsAcceptance(d: Decoded, p: Policy, q: Policy, payer: string)
    requires Raises(p, q) && Accepts(d, p, payer)
    ensures Accepts(d, q, payer)
  {
    var ixs := d.instructions;
    forall m ensures Total(p, m, ixs) == Total(q, m, ixs) {
      TotalsDependOnRules(p, q, m, ixs);
    }
    forall i | 0 <= i < |ixs| ensures LocalError(q, ixs[i]).None? {
      assert LocalError(p, ixs[i]).None?;
    }
    if q.maxPriorityFeeBps.Some? {
      BpsMonotone(Total(p, SpendOf(NATIVE_ASSET), ixs), p.maxPriorityFeeBps.value, q.maxPriorityFeeBps.value);
    }
    forall asset: string ensures CapOk(q, asset, ixs) {
      assert CapOk(p, asset, ixs);
    }
  }
}
