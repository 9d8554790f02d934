/**
 * What lies behind the effects of the money path in the steps of a run: nothing is signed, sent, reserved or
 * confirmed for a request without the answers that allow it.
 */
module GatewayHistory {
  import opened Options
  import opened Money
  import opened PolicyEngine
  import opened Store
  import opened Gateway
  import opened GatewayInvariants
  import opened GatewayTheorems
  import opened GatewayOutcomes

  // ---- the steps that allow an effect ------------------------------------------------------------

  /** The `execute` call with these arguments was given the trade id `id`. */
  ghost predicate Asked(steps: seq<Step>, id: TradeId, q: Request, now: int) {
    exists k :: 0 <= k < |steps| && steps[k] == Execute(q, now) && Exec(INIT, steps[..k]).next == id
  }

  predicate MintsPassed(steps: seq<Step>, id: TradeId, q: Request) {
    exists input2022, output2022 :: Answered(id, Mints(input2022, output2022)) in steps
      && (q.policy.allowToken2022 || (!input2022 && !output2022))
  }

  /** A balance was read that covers the input, and for SOL three million lamports of fees. */
  ghost predicate BalanceCovers(steps: seq<Step>, id: TradeId, q: Request) {
    exists balance :: Answered(id, Balances(balance)) in steps
      && balance >= q.intent.inputAmount + if q.intent.inputMint == WSOL_MINT then 3_000_000 else 0
  }

  /** A quote-asset input is reserved: in the bucket of its mint, in full, under the stamp of the call. */
  predicate IsReservationFor(row: Spend, id: TradeId, q: Request, now: int) {
    && row.tradeId == id && row.amount == q.intent.inputAmount && row.createdAt == now
    && (row.bucket == Sol <==> q.intent.inputMint == WSOL_MINT)
    && (row.bucket == Usdc <==> q.intent.inputMint in {USDC_MINT, USDT_MINT})
  }

  predicate IsReserved(spends: seq<Spend>, id: TradeId, q: Request, now: int) {
    q.intent.inputMint in {WSOL_MINT, USDC_MINT, USDT_MINT} ==>
      exists r :: 0 <= r < |spends| && IsReservationFor(spends[r], id, q, now)
  }

  /** How far along the awaits a suspended execution is. */
  function Depth(phase: Phase): nat {
    match phase
    case Inspecting => 0
    case ReadingBalances => 1
    case Simulating => 2
    case Signing => 3
    case Broadcasting(_) => 4
    case Confirming => 5
    case Settling => 6
  }

  /** What a request has behind it at a depth. */
  ghost predicate Behind(steps: seq<Step>, spends: seq<Spend>, id: TradeId, q: Request, now: int, depth: nat) {
    && Asked(steps, id, q, now)
    && WithinPolicy(q.policy, q.intent, q.confirmedByUser)
    && (depth >= 1 ==> MintsPassed(steps, id, q) && IsReserved(spends, id, q, now))
    && (depth >= 2 ==> BalanceCovers(steps, id, q))
    && (depth >= 3 ==> Answered(id, Simulation(true)) in steps)
    && (depth >= 6 ==> Answered(id, Confirmation(IsConfirmed)) in steps)
  }

  /** The wallet returned these bytes for the trade. */
  ghost predicate WalletSigned(steps: seq<Step>, id: TradeId, wire: string) {
    exists signature, has :: Answered(id, SignedTx(wire, signature, has)) in steps
  }

  /** Everything an event of the log has behind it. */
  ghost predicate EventBehind(steps: seq<Step>, spends: seq<Spend>, e: Event) {
    exists id: TradeId, q: Request, now: int :: q.key == e.key && Behind(steps, spends, id, q, now, 3)
      && (e.WirePersisted? || e.BroadcastRequested? ==> WalletSigned(steps, id, e.wire))
  }

  ghost predicate SpendBehind(steps: seq<Step>, row: Spend) {
    exists q: Request, now: int :: Asked(steps, row.tradeId, q, now) && MintsPassed(steps, row.tradeId, q)
      && WithinPolicy(q.policy, q.intent, q.confirmedByUser) && IsReservationFor(row, row.tradeId, q, now)
  }

  ghost predicate RunsBehind(steps: seq<Step>, s: Sys) {
    forall id | id in s.runs ::
      var run := s.runs[id];
      Behind(steps, s.db.spends, id, run.request, run.now, Depth(run.phase))
      && (run.phase.Broadcasting? ==> WalletSigned(steps, id, run.phase.wire))
  }

  ghost predicate LogBehind(steps: seq<Step>, s: Sys) {
    forall i | 0 <= i < |s.log| :: EventBehind(steps, s.db.spends, s.log[i])
  }

  ghost predicate SpendsBehind(steps: seq<Step>, s: Sys) {
    forall r | 0 <= r < |s.db.spends| :: SpendBehind(steps, s.db.spends[r])
  }

  // ---- what is behind stays behind ---------------------------------------------------------------

  /** Spend rows are only added and change in their state alone. */
  predicate SpendsGrow(a: seq<Spend>, b: seq<Spend>) {
    |a| <= |b| && forall r | 0 <= r < |a| :: b[r] == a[r].(state := b[r].state)
  }

  lemma AskedStays(steps: seq<Step>, step: Step, id: TradeId, q: Request, now: int)
    requires Asked(steps, id, q, now)
    ensures Asked(steps + [step], id, q, now)
  {
    var k :| 0 <= k < |steps| && steps[k] == Execute(q, now) && Exec(INIT, steps[..k]).next == id;
    assert (steps + [step])[..k] == steps[..k] && (steps + [step])[k] == steps[k];
  }

  lemma ReservedStays(a: seq<Spend>, b: seq<Spend>, id: TradeId, q: Request, now: int)
    requires SpendsGrow(a, b) && IsReserved(a, id, q, now)
    ensures IsReserved(b, id, q, now)
  {
    if q.intent.inputMint in {WSOL_MINT, USDC_MINT, USDT_MINT} {
      var r :| 0 <= r < |a| && IsReservationFor(a[r], id, q, now);
      assert IsReservationFor(b[r], id, q, now);
    }
  }

  lemma PassedStays(steps: seq<Step>, step: Step, id: TradeId, q: Request)
    ensures MintsPassed(steps, id, q) ==> MintsPassed(steps + [step], id, q)
    ensures BalanceCovers(steps, id, q) ==> BalanceCovers(steps + [step], id, q)
  {
    if MintsPassed(steps, id, q) {
      var i, o :| Answered(id, Mints(i, o)) in steps && (q.policy.allowToken2022 || (!i && !o));
      assert Answered(id, Mints(i, o)) in steps + [step];
    }
    if BalanceCovers(steps, id, q) {
      var b :| Answered(id, Balances(b)) in steps
        && b >= q.intent.inputAmount + if q.intent.inputMint == WSOL_MINT then 3_000_000 else 0;
      assert Answered(id, Balances(b)) in steps + [step];
    }
  }

  lemma SignedStays(steps: seq<Step>, step: Step, id: TradeId, wire: string)
    requires WalletSigned(steps, id, wire)
    ensures WalletSigned(steps + [step], id, wire)
  {
    var signature, has :| Answered(id, SignedTx(wire, signature, has)) in steps;
    assert Answered(id, SignedTx(wire, signature, has)) in steps + [step];
  }

  lemma BehindStays(steps: seq<Step>, step: Step, a: seq<Spend>, b: seq<Spend>, id: TradeId, q: Request, now: int, depth: nat)
    requires Behind(steps, a, id, q, now, depth) && SpendsGrow(a, b)
    ensures Behind(steps + [step], b, id, q, now, depth)
  {
    AskedStays(steps, step, id, q, now);
    PassedStays(steps, step, id, q);
    if depth >= 1 {
      ReservedStays(a, b, id, q, now);
    }
  }

  lemma EventStays(steps: seq<Step>, step: Step, a: seq<Spend>, b: seq<Spend>, e: Event)
    requires EventBehind(steps, a, e) && SpendsGrow(a, b)
    ensures EventBehind(steps + [step], b, e)
  {
    var id: TradeId, q: Request, now: int :| q.key == e.key && Behind(steps, a, id, q, now, 3)
      && (e.WirePersisted? || e.BroadcastRequested? ==> WalletSigned(steps, id, e.wire));
    BehindStays(steps, step, a, b, id, q, now, 3);
    if e.WirePersisted? || e.BroadcastRequested? {
      SignedStays(steps, step, id, e.wire);
    }
  }

  lemma SpendStays(steps: seq<Step>, step: Step, row: Spend, later: Spend)
    requires SpendBehind(steps, row) && later == row.(state := later.state)
    ensures SpendBehind(steps + [step], later)
  {
    var q: Request, now: int :| Asked(steps, row.tradeId, q, now) && MintsPassed(steps, row.tradeId, q)
      && WithinPolicy(q.policy, q.intent, q.confirmedByUser) && IsReservationFor(row, row.tradeId, q, now);
    AskedStays(steps, step, row.tradeId, q, now);
    PassedStays(steps, step, row.tradeId, q);
  }

  // ---- rows --------------------------------------------------------------------------------------

  /** The confirmer said so of the trade: to its live execution, or to a recovery that had come to its signed row. */
  ghost predicate Said(steps: seq<Step>, id: TradeId, status: ConfirmStatus) {
    || Answered(id, Confirmation(status)) in steps
    || exists k :: 0 <= k < |steps| && steps[k] == RecoveryAnswered(Says(status)) && Recovering(Exec(INIT, steps[..k]), id)
  }

  predicate Recovering(s: Sys, id: TradeId) {
    s.recovering != [] && s.recovering[0].id == id && !Unsigned(s.recovering[0].signature)
  }

  ghost predicate RowBehind(steps: seq<Step>, id: TradeId, row: TradeRow) {
    && (row.state == Confirmed ==> Said(steps, id, IsConfirmed))
    && (row.state == Expired ==> Said(steps, id, IsExpired))
    && (row.state == Sent ==> exists signature :: Answered(id, Landed(signature)) in steps)
  }

  ghost predicate RowsBehind(steps: seq<Step>, db: Db) {
    forall id | id in db.trades :: RowBehind(steps, id, db.trades[id])
  }

  lemma SaidStays(steps: seq<Step>, step: Step, id: TradeId, status: ConfirmStatus)
    requires Said(steps, id, status)
    ensures Said(steps + [step], id, status)
  {
    if Answered(id, Confirmation(status)) !in steps {
      var k :| 0 <= k < |steps| && steps[k] == RecoveryAnswered(Says(status)) && Recovering(Exec(INIT, steps[..k]), id);
      assert (steps + [step])[..k] == steps[..k] && (steps + [step])[k] == steps[k];
    }
  }

  lemma RowStays(steps: seq<Step>, step: Step, id: TradeId, a: TradeRow, b: TradeRow)
    requires RowBehind(steps, id, a) && a.state == b.state
    ensures RowBehind(steps + [step], id, b)
  {
    if a.state == Confirmed {
      SaidStays(steps, step, id, IsConfirmed);
    } else if a.state == Expired {
      SaidStays(steps, step, id, IsExpired);
    } else if a.state == Sent {
      var signature :| Answered(id, Landed(signature)) in steps;
      assert Answered(id, Landed(signature)) in steps + [step];
    }
  }

  /** No other row is touched, and the trade's own moves only by the answers behind it. */
  ghost predicate RowsMoved(steps: seq<Step>, a: map<TradeId, TradeRow>, b: map<TradeId, TradeRow>, id: TradeId) {
    && (forall j | j in b && j != id :: j in a && b[j] == a[j])
    && (id in b ==> (id in a && b[id].state == a[id].state) || RowBehind(steps, id, b[id]))
  }

  // ---- one segment -------------------------------------------------------------------------------

  /** What a resumed execution adds to the tables and the log, and how far it gets. */
  ghost predicate SegmentBehind(steps: seq<Step>, db: Db, id: TradeId, run: Run, o: Outcome) {
    && SpendsGrow(db.spends, o.db.spends)
    && RowsMoved(steps, db.trades, o.db.trades, id)
    && (forall r | |db.spends| <= r < |o.db.spends| ::
          MintsPassed(steps, id, run.request) && IsReservationFor(o.db.spends[r], id, run.request, run.now))
    && (o.run.Some? ==>
          && o.run.value.request == run.request && o.run.value.now == run.now
          && Behind(steps, o.db.spends, id, run.request, run.now, Depth(o.run.value.phase))
          && (o.run.value.phase.Broadcasting? ==> WalletSigned(steps, id, o.run.value.phase.wire)))
    && (forall e | e in o.events ::
          && e.key == run.request.key && Behind(steps, o.db.spends, id, run.request, run.now, 3)
          && (e.WirePersisted? || e.BroadcastRequested? ==> WalletSigned(steps, id, e.wire)))
  }

  lemma CatchBehind(steps: seq<Step>, db: Db, id: TradeId, run: Run, code: string)
    ensures SegmentBehind(steps, db, id, run, Catch(db, id, run, code))
  {
  }

  lemma InspectBehind(steps: seq<Step>, db: Db, id: TradeId, run: Run, i: bool, o: bool)
    requires Behind(steps, db.spends, id, run.request, run.now, 0) && Answered(id, Mints(i, o)) in steps
    ensures SegmentBehind(steps, db, id, run, AfterInspect(db, id, run, i, o))
  {
    CatchBehind(steps, db, id, run, "TOKEN2022_UNSUPPORTED");
    CatchBehind(steps, db, id, run, "CAP_EXCEEDED");
    BucketMeans(run.request.intent.inputMint);
    var after := AfterInspect(db, id, run, i, o);
    if after.run.Some? {
      assert MintsPassed(steps, id, run.request);
      if QuoteBucketFor(run.request.intent.inputMint).Some? {
        assert IsReservationFor(after.db.spends[|db.spends|], id, run.request, run.now);
      }
    }
  }

  lemma BalancesBehind(steps: seq<Step>, db: Db, id: TradeId, run: Run, input: int)
    requires Behind(steps, db.spends, id, run.request, run.now, 1) && Answered(id, Balances(input)) in steps
    ensures SegmentBehind(steps, db, id, run, AfterBalances(db, id, run, input))
  {
    CatchBehind(steps, db, id, run, "INSUFFICIENT_BALANCE");
    CatchBehind(steps, db, id, run, "INTERNAL");
    BucketMeans(run.request.intent.inputMint);
  }

  lemma SignBehind(steps: seq<Step>, db: Db, id: TradeId, run: Run, wire: string, signature: string, has: bool)
    requires Behind(steps, db.spends, id, run.request, run.now, 3) && Answered(id, SignedTx(wire, signature, has)) in steps
    ensures SegmentBehind(steps, db, id, run, AfterSign(db, id, run, wire, signature, has))
  {
    var persisted := PersistSigned(db, id, wire, signature);
    assert WalletSigned(steps, id, wire);
    if !has {
      CatchBehind(steps, persisted, id, run, "BROADCAST_FAILED");
      BehindAfterCatch(steps, persisted, id, run);
    }
  }

  lemma BehindAfterCatch(steps: seq<Step>, db: Db, id: TradeId, run: Run)
    requires Behind(steps, db.spends, id, run.request, run.now, 3)
    ensures Behind(steps, Catch(db, id, run, "BROADCAST_FAILED").db.spends, id, run.request, run.now, 3)
  {
    CatchBehind(steps, db, id, run, "BROADCAST_FAILED");
    ReservedStays(db.spends, Catch(db, id, run, "BROADCAST_FAILED").db.spends, id, run.request, run.now);
  }

  lemma SimulateBehind(steps: seq<Step>, db: Db, id: TradeId, run: Run, ok: bool)
    requires Behind(steps, db.spends, id, run.request, run.now, 2) && Answered(id, Simulation(ok)) in steps
    ensures SegmentBehind(steps, db, id, run, AfterSimulate(db, id, run, ok))
  {
    CatchBehind(steps, db, id, run, "SIMULATION_FAILED");
  }

  lemma BroadcastBehind(steps: seq<Step>, db: Db, id: TradeId, run: Run, signature: string)
    requires Behind(steps, db.spends, id, run.request, run.now, 4) && Answered(id, Landed(signature)) in steps
    ensures SegmentBehind(steps, db, id, run, AfterBroadcast(db, id, run, signature))
  {
  }

  lemma ConfirmBehind(steps: seq<Step>, db: Db, id: TradeId, run: Run, status: ConfirmStatus)
    requires Behind(steps, db.spends, id, run.request, run.now, 5) && Answered(id, Confirmation(status)) in steps
    ensures SegmentBehind(steps, db, id, run, AfterConfirm(db, id, run, status))
  {
  }

  lemma SettleBehind(steps: seq<Step>, db: Db, id: TradeId, run: Run)
    requires Behind(steps, db.spends, id, run.request, run.now, 6)
    ensures SegmentBehind(steps, db, id, run, AfterSettle(db, id, run))
  {
  }

  lemma WaitingBehind(steps: seq<Step>, db: Db, id: TradeId, run: Run)
    requires Behind(steps, db.spends, id, run.request, run.now, Depth(run.phase))
    requires run.phase.Broadcasting? ==> WalletSigned(steps, id, run.phase.wire)
    ensures SegmentBehind(steps, db, id, run, Outcome(db, Some(run), []))
  {
  }

  lemma EarlyBehind(steps: seq<Step>, db: Db, id: TradeId, run: Run, answer: Answer)
    requires Behind(steps, db.spends, id, run.request, run.now, Depth(run.phase)) && Answered(id, answer) in steps
    requires Depth(run.phase) < 3 && !answer.Rejects?
    ensures SegmentBehind(steps, db, id, run, Resume(db, id, run, answer))
  {
    match (run.phase, answer)
    case (Inspecting, Mints(i, o)) => InspectBehind(steps, db, id, run, i, o);
    case (ReadingBalances, Balances(input)) => BalancesBehind(steps, db, id, run, input);
    case (Simulating, Simulation(ok)) => SimulateBehind(steps, db, id, run, ok);
    case _ => WaitingBehind(steps, db, id, run);
  }

  lemma LateBehind(steps: seq<Step>, db: Db, id: TradeId, run: Run, answer: Answer)
    requires Behind(steps, db.spends, id, run.request, run.now, Depth(run.phase)) && Answered(id, answer) in steps
    requires run.phase.Broadcasting? ==> WalletSigned(steps, id, run.phase.wire)
    requires Depth(run.phase) >= 3 && !answer.Rejects?
    ensures SegmentBehind(steps, db, id, run, Resume(db, id, run, answer))
  {
    match (run.phase, answer)
    case (Signing, SignedTx(wire, sig, has)) => SignBehind(steps, db, id, run, wire, sig, has);
    case (Broadcasting(_), Landed(sig)) => BroadcastBehind(steps, db, id, run, sig);
    case (Confirming, Confirmation(status)) => ConfirmBehind(steps, db, id, run, status);
    case (Settling, SettleRead) => SettleBehind(steps, db, id, run);
    case _ => WaitingBehind(steps, db, id, run);
  }

  lemma ResumeBehind(steps: seq<Step>, db: Db, id: TradeId, run: Run, answer: Answer)
    requires Behind(steps, db.spends, id, run.request, run.now, Depth(run.phase)) && Answered(id, answer) in steps
    requires run.phase.Broadcasting? ==> WalletSigned(steps, id, run.phase.wire)
    ensures SegmentBehind(steps, db, id, run, Resume(db, id, run, answer))
  {
    if answer.Rejects? {
      CatchBehind(steps, db, id, run, "INTERNAL");
    } else if Depth(run.phase) < 3 {
      EarlyBehind(steps, db, id, run, answer);
    } else {
      LateBehind(steps, db, id, run, answer);
    }
  }

  // ---- a step of the system ----------------------------------------------------------------------

  /** Everything the system holds after these steps has behind it what it must. */
  ghost predicate AllBehind(steps: seq<Step>, s: Sys) {
    RunsBehind(steps, s) && LogBehind(steps, s) && SpendsBehind(steps, s) && RowsBehind(steps, s.db)
  }

  /** What holds of the others when a step changes no more than spend states. */
  lemma OthersStay(steps: seq<Step>, step: Step, s: Sys, spends: seq<Spend>, id: TradeId)
    requires AllBehind(steps, s) && SpendsGrow(s.db.spends, spends)
    ensures forall j | j in s.runs && j != id ::
      && Behind(steps + [step], spends, j, s.runs[j].request, s.runs[j].now, Depth(s.runs[j].phase))
      && (s.runs[j].phase.Broadcasting? ==> WalletSigned(steps + [step], j, s.runs[j].phase.wire))
    ensures forall i | 0 <= i < |s.log| :: EventBehind(steps + [step], spends, s.log[i])
    ensures forall r | 0 <= r < |s.db.spends| :: SpendBehind(steps + [step], spends[r])
  {
    forall j | j in s.runs && j != id
      ensures Behind(steps + [step], spends, j, s.runs[j].request, s.runs[j].now, Depth(s.runs[j].phase))
      ensures s.runs[j].phase.Broadcasting? ==> WalletSigned(steps + [step], j, s.runs[j].phase.wire)
    {
      var run := s.runs[j];
      BehindStays(steps, step, s.db.spends, spends, j, run.request, run.now, Depth(run.phase));
      if run.phase.Broadcasting? {
        SignedStays(steps, step, j, run.phase.wire);
      }
    }
    forall i | 0 <= i < |s.log| ensures EventBehind(steps + [step], spends, s.log[i]) {
      EventStays(steps, step, s.db.spends, spends, s.log[i]);
    }
    forall r | 0 <= r < |s.db.spends| ensures SpendBehind(steps + [step], spends[r]) {
      SpendStays(steps, step, s.db.spends[r], spends[r]);
    }
  }

  lemma RowsStay(steps: seq<Step>, step: Step, a: Db, b: Db, id: TradeId)
    requires RowsBehind(steps, a) && RowsMoved(steps + [step], a.trades, b.trades, id)
    ensures RowsBehind(steps + [step], b)
  {
    forall j | j in b.trades ensures RowBehind(steps + [step], j, b.trades[j]) {
      if j in a.trades && a.trades[j].state == b.trades[j].state {
        assert RowBehind(steps, j, a.trades[j]);
        RowStays(steps, step, j, a.trades[j], b.trades[j]);
      }
    }
  }

  lemma NewSpends(steps: seq<Step>, db: Db, id: TradeId, run: Run, o: Outcome)
    requires SegmentBehind(steps, db, id, run, o) && Behind(steps, db.spends, id, run.request, run.now, 0)
    ensures forall r | |db.spends| <= r < |o.db.spends| :: SpendBehind(steps, o.db.spends[r])
  {
    forall r | |db.spends| <= r < |o.db.spends| ensures SpendBehind(steps, o.db.spends[r]) {
      assert IsReservationFor(o.db.spends[r], id, run.request, run.now);
    }
  }

  lemma NewEvents(steps: seq<Step>, db: Db, id: TradeId, run: Run, o: Outcome)
    requires SegmentBehind(steps, db, id, run, o)
    ensures forall i | 0 <= i < |o.events| :: EventBehind(steps, o.db.spends, o.events[i])
  {
    forall i | 0 <= i < |o.events| ensures EventBehind(steps, o.db.spends, o.events[i]) {
      var e := o.events[i];
      assert e in o.events;
      assert e.key == run.request.key && Behind(steps, o.db.spends, id, run.request, run.now, 3);
    }
  }

  lemma AnsweredBehind(steps: seq<Step>, s: Sys, id: TradeId, answer: Answer)
    requires AllBehind(steps, s) && id in s.runs
    ensures AllBehind(steps + [Answered(id, answer)], Apply(s, Answered(id, answer)))
  {
    var step, run := Answered(id, answer), s.runs[id];
    var after := steps + [step];
    var o := Resume(s.db, id, run, answer);
    BehindStays(steps, step, s.db.spends, s.db.spends, id, run.request, run.now, Depth(run.phase));
    if run.phase.Broadcasting? {
      SignedStays(steps, step, id, run.phase.wire);
    }
    assert step in after;
    ResumeBehind(after, s.db, id, run, answer);
    FollowBehind(steps, step, s, id, run, o);
  }

  lemma FollowBehind(steps: seq<Step>, step: Step, s: Sys, id: TradeId, run: Run, o: Outcome)
    requires AllBehind(steps, s) && SegmentBehind(steps + [step], s.db, id, run, o)
    requires Behind(steps + [step], s.db.spends, id, run.request, run.now, 0)
    ensures AllBehind(steps + [step], Follow(s, id, o))
  {
    var after, t := steps + [step], Follow(s, id, o);
    OthersStay(steps, step, s, o.db.spends, id);
    RowsStay(steps, step, s.db, o.db, id);
    NewSpends(after, s.db, id, run, o);
    NewEvents(after, s.db, id, run, o);
    assert LogBehind(after, t);
  }

  lemma BeginBehind(steps: seq<Step>, db: Db, id: TradeId, q: Request, now: int)
    requires Asked(steps, id, q, now)
    ensures var o := Begin(db, id, q, now);
      && o.db.spends == db.spends && o.db.trades == db.trades && o.events == []
      && (o.run.Some? ==>
            && o.run.value == Run(q, now, None, false, Inspecting)
            && Behind(steps, db.spends, id, q, now, 0) && SegmentBehind(steps, db, id, o.run.value, o))
  {
    AcceptedIff(q.policy, q.intent, q.confirmedByUser);
  }

  lemma ExecuteBehind(steps: seq<Step>, s: Sys, q: Request, now: int)
    requires AllBehind(steps, s) && s == Exec(INIT, steps)
    ensures AllBehind(steps + [Execute(q, now)], Apply(s, Execute(q, now)))
  {
    var step, id := Execute(q, now), s.next;
    var after := steps + [step];
    var o := Begin(s.db, id, q, now);
    assert Asked(after, id, q, now) by {
      assert after[..|steps|] == steps && after[|steps|] == step;
    }
    BeginBehind(after, s.db, id, q, now);
    if o.run.Some? {
      FollowBehind(steps, step, s, id, o.run.value, o);
    } else {
      NothingMoves(steps, step, s, Follow(s, id, o));
    }
    assert RunsBehind(after, Follow(s, id, o)) ==> RunsBehind(after, Apply(s, step));
  }

  lemma SettleSpends(db: Db, entry: JobEntry, status: ConfirmStatus)
    ensures var t := Gateway.Settle(db, entry, status); SpendsGrow(db.spends, t.spends) && |t.spends| == |db.spends|
  {
    var r := entry.reservationId;
    assert SpendsGrow(db.spends, ReleaseOptional(db, r).spends) && SpendsGrow(db.spends, ConsumeOptional(db, r).spends);
  }

  lemma SettleRows(db: Db, entry: JobEntry, status: ConfirmStatus)
    ensures var t := Gateway.Settle(db, entry, status);
      && t.trades.Keys == db.trades.Keys
      && (forall j | j in db.trades && j != entry.id :: t.trades[j] == db.trades[j])
      && (entry.id in db.trades ==>
            var state := t.trades[entry.id].state;
            && state != Sent
            && (state == Confirmed || state == Expired ==> !Unsigned(entry.signature))
            && (state == Confirmed ==> status == IsConfirmed) && (state == Expired ==> status == IsExpired))
  {
    var r := entry.reservationId;
    assert ReleaseOptional(db, r).trades == db.trades && ConsumeOptional(db, r).trades == db.trades;
  }

  lemma SettledRow(steps: seq<Step>, s: Sys, reply: RecoveryAnswer)
    requires s == Exec(INIT, steps) && s.recovering != []
    requires !(reply.ConfirmerRejects? && !NoSignature(s.recovering[0]))
    ensures var step := RecoveryAnswered(reply); var t := Apply(s, step);
      && SpendsGrow(s.db.spends, t.db.spends) && |t.db.spends| == |s.db.spends|
      && RowsMoved(steps + [step], s.db.trades, t.db.trades, s.recovering[0].id)
  {
    var step, entry := RecoveryAnswered(reply), s.recovering[0];
    var after := steps + [step];
    assert after[..|steps|] == steps && after[|steps|] == step;
    assert reply.Says? && !Unsigned(entry.signature) ==> Said(after, entry.id, reply.status) by {
      assert !Unsigned(entry.signature) ==> Recovering(Exec(INIT, after[..|steps|]), entry.id);
    }
    SettleSpends(s.db, entry, if reply.Says? then reply.status else IsFailed);
    SettleRows(s.db, entry, if reply.Says? then reply.status else IsFailed);
  }

  lemma RecoveryBehind(steps: seq<Step>, s: Sys, reply: RecoveryAnswer)
    requires AllBehind(steps, s) && s == Exec(INIT, steps)
    ensures AllBehind(steps + [RecoveryAnswered(reply)], Apply(s, RecoveryAnswered(reply)))
  {
    var step := RecoveryAnswered(reply);
    if s.recovering == [] || (reply.ConfirmerRejects? && !NoSignature(s.recovering[0])) {
      NothingMoves(steps, step, s, Apply(s, step));
    } else {
      var t := Apply(s, step);
      SettledRow(steps, s, reply);
      OthersStay(steps, step, s, t.db.spends, s.next);
      RowsStay(steps, step, s.db, t.db, s.recovering[0].id);
      OthersStayAll(steps, step, s, t.db.spends);
    }
  }

  lemma OthersStayAll(steps: seq<Step>, step: Step, s: Sys, spends: seq<Spend>)
    requires AllBehind(steps, s) && SpendsGrow(s.db.spends, spends)
    ensures RunsBehind(steps + [step], s.(db := s.db.(spends := spends)))
  {
    forall j | j in s.runs
      ensures Behind(steps + [step], spends, j, s.runs[j].request, s.runs[j].now, Depth(s.runs[j].phase))
      ensures s.runs[j].phase.Broadcasting? ==> WalletSigned(steps + [step], j, s.runs[j].phase.wire)
    {
      OthersStay(steps, step, s, spends, j + 1);
    }
  }

  lemma NothingMoves(steps: seq<Step>, step: Step, s: Sys, t: Sys)
    requires AllBehind(steps, s) && t.db.spends == s.db.spends && t.db.trades == s.db.trades && t.log == s.log
    requires forall id | id in t.runs :: id in s.runs && t.runs[id] == s.runs[id]
    ensures AllBehind(steps + [step], t)
  {
    OthersStay(steps, step, s, s.db.spends, 0);
    OthersStayAll(steps, step, s, s.db.spends);
    RowsStay(steps, step, s.db, t.db, 0);
  }

  lemma StepBehind(steps: seq<Step>, s: Sys, step: Step)
    requires AllBehind(steps, s) && s == Exec(INIT, steps)
    ensures AllBehind(steps + [step], Apply(s, step))
  {
    match step
    case Execute(q, now) => ExecuteBehind(steps, s, q, now);
    case Answered(id, answer) =>
      if id in s.runs {
        AnsweredBehind(steps, s, id, answer);
      } else {
        NothingMoves(steps, step, s, s);
      }
    case RecoveryAnswered(reply) => RecoveryBehind(steps, s, reply);
    case _ => NothingMoves(steps, step, s, Apply(s, step));
  }

  lemma {:induction false} RunBehind(steps: seq<Step>)
    ensures AllBehind(steps, Exec(INIT, steps))
  {
    if steps != [] {
      var front, last := steps[..|steps| - 1], steps[|steps| - 1];
      RunBehind(front);
      assert steps == front + [last];
      ExecAppend(INIT, front, [last]);
      ExecTwo(Exec(INIT, front), last, last);
      StepBehind(front, Exec(INIT, front), last);
    }
  }

  // ---- what every run promises -------------------------------------------------------------------

  /**
   * Nothing is signed, written or sent unvetted. Behind every call of the log, in any run with any recoveries and
   * crashes, lies the request of its key: within the policy it was asked under, its mints inspected, its input
   * reserved in full in the bucket of its mint, its balance read and enough, its simulation passed; and the bytes
   * written and sent are those the wallet returned.
   */
  lemma NothingMovesUnvetted(steps: seq<Step>, i: nat) returns (id: TradeId, q: Request, now: int)
    requires i < |Exec(INIT, steps).log|
    ensures var s := Exec(INIT, steps); var e := s.log[i];
      && q.key == e.key && Asked(steps, id, q, now)
      && WithinPolicy(q.policy, q.intent, q.confirmedByUser)
      && MintsPassed(steps, id, q) && IsReserved(s.db.spends, id, q, now) && BalanceCovers(steps, id, q)
      && Answered(id, Simulation(true)) in steps
      && (e.WirePersisted? || e.BroadcastRequested? ==> WalletSigned(steps, id, e.wire))
  {
    RunBehind(steps);
    var s := Exec(INIT, steps);
    var e := s.log[i];
    assert EventBehind(steps, s.db.spends, e);
    id, q, now :| q.key == e.key && Behind(steps, s.db.spends, id, q, now, 3)
      && (e.WirePersisted? || e.BroadcastRequested? ==> WalletSigned(steps, id, e.wire));
  }

  /** Every row of the spend table is the input of an accepted request, in full, in its bucket, under its stamp. */
  lemma SpendIsTheRequests(steps: seq<Step>, r: nat) returns (q: Request, now: int)
    requires r < |Exec(INIT, steps).db.spends|
    ensures var row := Exec(INIT, steps).db.spends[r];
      && Asked(steps, row.tradeId, q, now) && WithinPolicy(q.policy, q.intent, q.confirmedByUser)
      && MintsPassed(steps, row.tradeId, q) && IsReservationFor(row, row.tradeId, q, now)
  {
    RunBehind(steps);
    var row := Exec(INIT, steps).db.spends[r];
    assert SpendBehind(steps, row);
    q, now :| Asked(steps, row.tradeId, q, now) && MintsPassed(steps, row.tradeId, q)
      && WithinPolicy(q.policy, q.intent, q.confirmedByUser) && IsReservationFor(row, row.tradeId, q, now);
  }

  /**
   * A row says what the chain was reported to say: `confirmed` and `expired` only after the confirmer said so of
   * that trade, `sent` only after the broadcaster answered for it.
   */
  lemma RowsSayWhatWasReported(steps: seq<Step>, id: TradeId)
    requires id in Exec(INIT, steps).db.trades
    ensures var state := Exec(INIT, steps).db.trades[id].state;
      && (state == Confirmed ==> Said(steps, id, IsConfirmed))
      && (state == Expired ==> Said(steps, id, IsExpired))
      && (state == Sent ==> exists signature :: Answered(id, Landed(signature)) in steps)
  {
    RunBehind(steps);
    assert RowBehind(steps, id, Exec(INIT, steps).db.trades[id]);
  }
}
