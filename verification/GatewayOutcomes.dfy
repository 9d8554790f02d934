/**
 * What stands behind the effects of the money path: which answers end a trade in which state, and what a request
 * must have passed before its bytes are signed, sent or paid for. Stated of the tables, the log and the steps of
 * a run, not of the segments.
 */
module GatewayOutcomes {
  import opened Options
  import opened Money
  import opened PolicyEngine
  import opened Store
  import opened Gateway
  import opened GatewayInvariants
  import opened GatewayTheorems

  // ---- which answer ends in which state ----------------------------------------------------------

  /** A trade row in a state, with the reservation it names, if any, in one. */
  predicate EndsAs(db: Db, id: TradeId, state: TradeState, spend: SpendState) {
    && id in db.trades && db.trades[id].state == state
    && (db.trades[id].reservationId.Some? ==>
          db.trades[id].reservationId.value < |db.spends| && db.spends[db.trades[id].reservationId.value].state == spend)
  }

  /** A sent trade under a live execution, as every reachable state has it. */
  predicate SentUnder(db: Db, id: TradeId, run: Run) {
    && id in db.trades && run.inserted && db.trades[id].state == Sent
    && db.trades[id].reservationId == run.reservationId && Owns(db, run.reservationId, id, Held)
  }

  lemma ConfirmationEnds(db: Db, id: TradeId, run: Run)
    requires SentUnder(db, id, run) && run.phase.Confirming?
    ensures EndsAs(Resume(db, id, run, Confirmation(IsExpired)).db, id, Expired, Released)
    ensures EndsAs(Resume(db, id, run, Confirmation(IsFailed)).db, id, Errored, Released)
    ensures EndsAs(Resume(db, id, run, Rejects).db, id, Errored, Released)
    ensures Resume(db, id, run, Confirmation(IsConfirmed)) == Outcome(db, Some(run.(phase := Settling)), [])
  {
  }

  lemma SettlementEnds(db: Db, id: TradeId, run: Run)
    requires SentUnder(db, id, run) && run.phase.Settling?
    ensures EndsAs(Resume(db, id, run, SettleRead).db, id, Confirmed, Consumed)
    ensures EndsAs(Resume(db, id, run, Rejects).db, id, Errored, Released)
  {
  }

  lemma LiveIsSentUnder(steps: seq<Step>, id: TradeId)
    requires BootRecovery(INIT, steps) && id in Exec(INIT, steps).runs
    ensures var s := Exec(INIT, steps);
      s.runs[id].phase.Confirming? || s.runs[id].phase.Settling? ==> SentUnder(s.db, id, s.runs[id])
  {
    InitInv();
    RunKeeps(INIT, steps);
    var s := Exec(INIT, steps);
    assert RunAgrees(s.db, id, s.runs[id]);
    assert id in s.db.trades ==> RowAgrees(s.db, id);
  }

  /**
   * What the confirmer says of a live execution decides how its trade ends: `expired` and `failed` release the
   * reservation, `confirmed` goes on to the settlement and leaves the tables alone.
   */
  lemma ConfirmationDecides(steps: seq<Step>, id: TradeId)
    requires BootRecovery(INIT, steps) && id in Exec(INIT, steps).runs && Exec(INIT, steps).runs[id].phase.Confirming?
    ensures var s := Exec(INIT, steps);
      && EndsAs(Apply(s, Answered(id, Confirmation(IsExpired))).db, id, Expired, Released)
      && EndsAs(Apply(s, Answered(id, Confirmation(IsFailed))).db, id, Errored, Released)
      && EndsAs(Apply(s, Answered(id, Rejects)).db, id, Errored, Released)
      && (var t := Apply(s, Answered(id, Confirmation(IsConfirmed)));
          t.db == s.db && id in t.runs && t.runs[id].phase.Settling?)
  {
    LiveIsSentUnder(steps, id);
    var s := Exec(INIT, steps);
    ConfirmationEnds(s.db, id, s.runs[id]);
  }

  /** Only the settlement confirms: it consumes the reservation. */
  lemma SettlementDecides(steps: seq<Step>, id: TradeId)
    requires BootRecovery(INIT, steps) && id in Exec(INIT, steps).runs && Exec(INIT, steps).runs[id].phase.Settling?
    ensures var s := Exec(INIT, steps);
      && EndsAs(Apply(s, Answered(id, SettleRead)).db, id, Confirmed, Consumed)
      && EndsAs(Apply(s, Answered(id, Rejects)).db, id, Errored, Released)
  {
    LiveIsSentUnder(steps, id);
    var s := Exec(INIT, steps);
    SettlementEnds(s.db, id, s.runs[id]);
  }

  // ---- recovery ----------------------------------------------------------------------------------

  predicate Unsigned(signature: Option<string>) {
    signature.None? || signature.value == ""
  }

  /** The state a row found `sent` ends in, by the confirmer's reply about it. */
  predicate Decides(signature: Option<string>, reply: RecoveryAnswer, state: TradeState) {
    && (state == Confirmed <==> !Unsigned(signature) && reply == Says(IsConfirmed))
    && (state == Expired <==> !Unsigned(signature) && reply == Says(IsExpired))
    && (state == Errored <==> Unsigned(signature) || (reply != Says(IsConfirmed) && reply != Says(IsExpired)))
  }

  /** A row after its settlement: the state its reply decides, its reservation consumed or released with it. */
  predicate SettledBy(before: TradeRow, after: TradeRow, spends: seq<Spend>, reply: RecoveryAnswer) {
    && Decides(before.signature, reply, after.state)
    && after.reservationId == before.reservationId && after.signature == before.signature
    && (before.reservationId.Some? && before.reservationId.value < |spends| ==>
          spends[before.reservationId.value].state == if after.state == Confirmed then Consumed else Released)
  }

  lemma SettleDecides(db: Db, id: TradeId, reply: RecoveryAnswer)
    requires id in db.trades
    requires var r := db.trades[id].reservationId; r.Some? && r.value < |db.spends| ==> db.spends[r.value].state == Held
    requires !Unsigned(db.trades[id].signature) ==> reply.Says?
    ensures var after := Gateway.Settle(db, EntryOf(db, id), if reply.Says? then reply.status else IsFailed);
      && after.trades.Keys == db.trades.Keys && |after.spends| == |db.spends|
      && SettledBy(db.trades[id], after.trades[id], after.spends, reply)
      && (forall j | j in db.trades && j != id :: after.trades[j] == db.trades[j])
      && (forall r | 0 <= r < |db.spends| && Some(r) != db.trades[id].reservationId :: after.spends[r] == db.spends[r])
      && (forall r | 0 <= r < |db.spends| :: after.spends[r] == db.spends[r].(state := after.spends[r].state))
  {
  }

  /** The confirmer's reply to a recovery decides how the row it has come to ends; a rejection changes no table. */
  lemma RecoveryDecides(steps: seq<Step>, reply: RecoveryAnswer)
    requires BootRecovery(INIT, steps) && Exec(INIT, steps).recovering != []
    ensures var s := Exec(INIT, steps); var id := s.recovering[0].id;
      var db := Apply(s, RecoveryAnswered(reply)).db;
      && id in s.db.trades && id in db.trades
      && (reply.ConfirmerRejects? && !Unsigned(s.db.trades[id].signature) ==> db == s.db)
      && (reply.Says? || Unsigned(s.db.trades[id].signature) ==> SettledBy(s.db.trades[id], db.trades[id], db.spends, reply))
  {
    InitInv();
    RunKeeps(INIT, steps);
    var s := Exec(INIT, steps);
    var id := s.recovering[0].id;
    assert EntryOk(s, s.recovering[0]) && RowAgrees(s.db, id);
    if reply.Says? || Unsigned(s.db.trades[id].signature) {
      SettleDecides(s.db, id, reply);
    }
  }

  /** Every sent row holds its own reservation, if it has one. */
  predicate SentRowsHold(db: Db) {
    forall id | id in db.trades && db.trades[id].state == Sent :: Owns(db, db.trades[id].reservationId, id, Held)
  }

  lemma ReachableSentRowsHold(steps: seq<Step>)
    requires BootRecovery(INIT, steps)
    ensures SentRowsHold(Exec(INIT, steps).db)
  {
    InitInv();
    RunKeeps(INIT, steps);
    var db := Exec(INIT, steps).db;
    forall id | id in db.trades && db.trades[id].state == Sent ensures Owns(db, db.trades[id].reservationId, id, Held) {
      assert RowAgrees(db, id);
    }
  }

  // ---- what a request has passed -----------------------------------------------------------------

  /** The guards of an accepted request, in terms of its policy and its own claims. */
  predicate WithinPolicy(policy: PolicyConfig, intent: TradeIntent, confirmedByUser: bool) {
    && !policy.killSwitch && policy.executionEnabled
    && (if PostsZeroCollateral(intent.kind) then intent.inputAmount >= 0 else intent.inputAmount > 0)
    && (intent.inputUntrusted || intent.outputUntrusted ==> confirmedByUser)
    && FeeWithin(policy, intent)
    && intent.quote.slippageBps <= policy.maxSlippageBps
    && (intent.quote.outAmount > 0 ==>
          intent.quote.minOutAmount * 10_000 > intent.quote.outAmount * (9_949 - policy.maxSlippageBps))
    && MintAllowed(policy, intent.inputMint) && MintAllowed(policy, intent.outputMint)
  }

  predicate MintAllowed(policy: PolicyConfig, mint: string) {
    mint !in policy.mintDenylist && (policy.mintAllowlist.Some? ==> mint in policy.mintAllowlist.value)
  }

  /** The fee is a number of lamports, in whole lamports at most the ceiling and its share of a quote-asset notional. */
  predicate FeeWithin(policy: PolicyConfig, intent: TradeIntent) {
    && intent.priorityFeeLamports.Finite?
    && 0.0 <= intent.priorityFeeLamports.value < (policy.priorityFeeMaxLamports + 1) as real
    && (intent.inputMint in {WSOL_MINT, USDC_MINT, USDT_MINT} && intent.inputAmount > 0 ==>
          intent.priorityFeeLamports.value.Floor * 10_000 <= intent.inputAmount * policy.priorityFeeMaxBps)
  }

  lemma FeeMeans(policy: PolicyConfig, intent: TradeIntent)
    requires intent.priorityFeeLamports.Finite? && intent.priorityFeeLamports.value >= 0.0
    ensures FeeWithin(policy, intent) <==>
      FeeLamports(intent) <= policy.priorityFeeMaxLamports && !FeeAboveNotional(policy, intent)
  {
    var fee := FeeLamports(intent);
    if intent.inputAmount > 0 {
      ShareBound(fee, intent.inputAmount * policy.priorityFeeMaxBps);
    }
  }

  lemma ShareBound(fee: int, share: nat)
    ensures fee <= share / 10_000 <==> fee * 10_000 <= share
  {
  }

  /** Acceptance is exactly that, of a supported kind with its leg and its transaction. */
  lemma AcceptedIff(policy: PolicyConfig, intent: TradeIntent, confirmedByUser: bool)
    ensures StaticGuards(policy, intent, GuardOptions(false, confirmedByUser)).Accepted? <==>
      && WithinPolicy(policy, intent, confirmedByUser)
      && !intent.kind.UnsupportedKind? && intent.unsignedTx != ""
      && (intent.perp.Some? <==> IsPerpKind(intent.kind))
      && (intent.perp.Some? ==>
            0 < intent.perp.value.expectedBaseAmount && intent.perp.value.minBaseAmount <= intent.perp.value.expectedBaseAmount)
  {
    if intent.priorityFeeLamports.Finite? && intent.priorityFeeLamports.value >= 0.0 {
      FeeMeans(policy, intent);
    }
    if intent.quote.outAmount > 0 {
      SlippageWithin(intent.quote.outAmount, intent.quote.minOutAmount, policy.maxSlippageBps + MIN_OUT_TOLERANCE_BPS);
    }
  }
}
