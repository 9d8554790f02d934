/**
 * The money path as a step system (src/kernel/trade-gateway.ts, `#live`; src/kernel/reconciler.ts, `recover`).
 *
 * `#live` is asynchronous: what runs between two `await`s is one atomic segment, and any number of
 * executions, one boot-time recovery and a crash may interleave between segments. A segment is a function
 * of the tables, the execution's own locals and the answer its last `await` got from the outside world.
 * `Apply` lets one step happen; `Exec` folds a whole run. The answers of the mint inspector, the balance
 * reader, the simulator, the wallet, the broadcaster and the confirmer are arbitrary.
 */
module Gateway {
  import opened Options
  import opened Money
  import opened PolicyEngine
  import opened Store

  const FEE_BUFFER_LAMPORTS := 3_000_000

  /** The arguments of one `execute` call, with the policy its getter returned at that moment. */
  datatype Request = Request(
    key: string,
    intent: TradeIntent,
    confirmedByUser: bool,
    policy: PolicyConfig,
    positionsMounted: bool)

  /** The await an execution is suspended on. */
  datatype Phase =
    | Inspecting
    | ReadingBalances
    | Simulating
    | Signing
    | Broadcasting(wire: string)
    | Confirming
    | Settling

  /** The locals of one `#live` activation. */
  datatype Run = Run(
    request: Request,
    now: int,
    reservationId: Option<ReservationId>,
    inserted: bool,
    phase: Phase)

  datatype ConfirmStatus = IsConfirmed | IsExpired | IsFailed

  /** What an await resolved to; `Rejects` is a thrown error. */
  datatype Answer =
    | Rejects
    | Mints(input2022: bool, output2022: bool)
    | Balances(input: int)
    | Simulation(ok: bool)
    | SignedTx(wire: string, signature: string, hasBroadcaster: bool)
    | Landed(signature: string)
    | Confirmation(status: ConfirmStatus)
    | SettleRead

  /** The calls that matter for at-most-once, in the order they are made. */
  datatype Event =
    | SignRequested(key: string)
    | WirePersisted(key: string, wire: string)
    | BroadcastRequested(key: string, wire: string)

  datatype Outcome = Outcome(db: Db, run: Option<Run>, events: seq<Event>)

  // ---- the segments ------------------------------------------------------------------------------

  /** The catch block: release, then mark an inserted row errored. */
  function Catch(db: Db, id: TradeId, run: Run, code: string): Outcome {
    var released := ReleaseOptional(db, run.reservationId);
    Outcome(if run.inserted then Fail(released, id, Errored, code) else released, None, [])
  }

  function Suspend(db: Db, run: Run, phase: Phase, events: seq<Event>): Outcome {
    Outcome(db, Some(run.(phase := phase)), events)
  }

  predicate Unsettleable(q: Request) {
    IsPerpKind(q.intent.kind) && !q.positionsMounted
  }

  function GuardsOf(q: Request): Verdict {
    StaticGuards(q.policy, q.intent, GuardOptions(false, q.confirmedByUser))
  }

  function Begin(db: Db, id: TradeId, q: Request, now: int): Outcome {
    if q.key in db.idempotency then Outcome(db, None, [])
    else
      var claimed := ClaimIdempotency(db, q.key, id);
      var run := Run(q, now, None, false, Inspecting);
      if GuardsOf(q).Refused? || Unsettleable(q) then Catch(claimed, id, run, "GUARD")
      else Outcome(claimed, Some(run), [])
  }

  function AfterInspect(db: Db, id: TradeId, run: Run, input2022: bool, output2022: bool): Outcome {
    var q := run.request;
    if !q.policy.allowToken2022 && (input2022 || output2022) then Catch(db, id, run, "TOKEN2022_UNSUPPORTED")
    else
      var bucket := QuoteBucketFor(q.intent.inputMint);
      if bucket.None? then Suspend(db, run, ReadingBalances, [])
      else
        var caps := CapsFor(q.policy, bucket.value);
        var outcome := ReserveOutcomeOf(db, bucket.value, q.intent.inputAmount, caps, run.now);
        if outcome.Denied? then Catch(db, id, run, "CAP_EXCEEDED")
        else
          Suspend(Reserve(db, bucket.value, q.intent.inputAmount, caps, id, run.now),
                  run.(reservationId := Some(outcome.reservationId)), ReadingBalances, [])
  }

  function AfterBalances(db: Db, id: TradeId, run: Run, input: int): Outcome {
    var q := run.request;
    var need := q.intent.inputAmount
                + if QuoteBucketFor(q.intent.inputMint) == Some(Sol) then FEE_BUFFER_LAMPORTS else 0;
    if input < need then Catch(db, id, run, "INSUFFICIENT_BALANCE")
    else if InsertConflict(db, id, q.key) then Catch(db, id, run, "INTERNAL")
    else
      Suspend(InsertTrade(db, id, NewRow(q.key, q.intent.lastValidBlockHeight, run.reservationId)),
              run.(inserted := true), Simulating, [])
  }

  function AfterSimulate(db: Db, id: TradeId, run: Run, ok: bool): Outcome {
    if !ok then Catch(db, id, run, "SIMULATION_FAILED")
    else Suspend(db, run, Signing, [SignRequested(run.request.key)])
  }

  /** The signed wire is persisted, and only then handed to the broadcaster. */
  function AfterSign(db: Db, id: TradeId, run: Run, wire: string, signature: string, hasBroadcaster: bool): Outcome {
    var persisted := PersistSigned(db, id, wire, signature);
    var key := run.request.key;
    if !hasBroadcaster then
      var failed := Catch(persisted, id, run, "BROADCAST_FAILED");
      failed.(events := [WirePersisted(key, wire)])
    else Suspend(persisted, run, Broadcasting(wire), [WirePersisted(key, wire), BroadcastRequested(key, wire)])
  }

  function AfterBroadcast(db: Db, id: TradeId, run: Run, signature: string): Outcome {
    Suspend(SetState(SetSignature(db, id, signature), id, Sent), run, Confirming, [])
  }

  function AfterConfirm(db: Db, id: TradeId, run: Run, status: ConfirmStatus): Outcome {
    if status != IsConfirmed then
      var released := ReleaseOptional(db, run.reservationId);
      Outcome(if status == IsExpired then Fail(released, id, Expired, "CONFIRM_TIMEOUT")
              else Fail(released, id, Errored, "BROADCAST_FAILED"), None, [])
    else Suspend(db, run, Settling, [])
  }

  function AfterSettle(db: Db, id: TradeId, run: Run): Outcome {
    Outcome(SetState(ConsumeOptional(db, run.reservationId), id, Confirmed), None, [])
  }

  /** One resumption of `#live`. An answer of the wrong kind cannot occur and changes nothing. */
  function Resume(db: Db, id: TradeId, run: Run, answer: Answer): Outcome {
    match (run.phase, answer)
    case (_, Rejects) => Catch(db, id, run, "INTERNAL")
    case (Inspecting, Mints(i, o)) => AfterInspect(db, id, run, i, o)
    case (ReadingBalances, Balances(input)) => AfterBalances(db, id, run, input)
    case (Simulating, Simulation(ok)) => AfterSimulate(db, id, run, ok)
    case (Signing, SignedTx(wire, sig, has)) => AfterSign(db, id, run, wire, sig, has)
    case (Broadcasting(_), Landed(sig)) => AfterBroadcast(db, id, run, sig)
    case (Confirming, Confirmation(status)) => AfterConfirm(db, id, run, status)
    case (Settling, SettleRead) => AfterSettle(db, id, run)
    case _ => Outcome(db, Some(run), [])
  }

  // ---- recovery ----------------------------------------------------------------------------------

  /** What `pendingSent` handed to `recover` for one row. */
  datatype JobEntry = JobEntry(id: TradeId, signature: Option<string>, reservationId: Option<ReservationId>)

  datatype RecoveryAnswer = ConfirmerRejects | Says(status: ConfirmStatus)

  function EntryOf(db: Db, id: TradeId): JobEntry
    requires id in db.trades
  {
    JobEntry(id, db.trades[id].signature, db.trades[id].reservationId)
  }

  function Snapshot(db: Db, order: seq<TradeId>): seq<JobEntry>
    requires forall i | 0 <= i < |order| :: order[i] in db.trades
  {
    seq(|order|, i requires 0 <= i < |order| => EntryOf(db, order[i]))
  }

  predicate NoSignature(entry: JobEntry) {
    entry.signature.None? || entry.signature.value == ""
  }

  /** One iteration of the recovery loop, for a confirmer that answered. */
  function Settle(db: Db, entry: JobEntry, status: ConfirmStatus): Db {
    if NoSignature(entry) then
      Fail(ReleaseOptional(db, entry.reservationId), entry.id, Errored, "RECONCILE_NO_SIGNATURE")
    else if status == IsConfirmed then
      SetState(ConsumeOptional(db, entry.reservationId), entry.id, Confirmed)
    else if status == IsExpired then
      Fail(ReleaseOptional(db, entry.reservationId), entry.id, Expired, "RECONCILE_EXPIRED")
    else
      Fail(ReleaseOptional(db, entry.reservationId), entry.id, Errored, "RECONCILE_FAILED")
  }

  // ---- the system --------------------------------------------------------------------------------

  /**
   * `recovering` is the rest of the work list of the one `recover()` in progress. `swept` records, for the
   * proofs, that a recovery has read its work list since the last crash and has not been abandoned.
   */
  datatype Sys = Sys(
    db: Db,
    runs: map<TradeId, Run>,
    next: TradeId,
    log: seq<Event>,
    recovering: seq<JobEntry>,
    swept: bool)

  const INIT := Sys(EMPTY_DB, map[], 0, [], [], true)

  datatype Step =
    | Execute(request: Request, now: int)
    | Answered(id: TradeId, answer: Answer)
    | Crash
    | StartRecovery(order: seq<TradeId>)
    | RecoveryAnswered(reply: RecoveryAnswer)

  function Follow(s: Sys, id: TradeId, o: Outcome): Sys {
    s.(db := o.db,
       runs := if o.run.Some? then s.runs[id := o.run.value] else s.runs - {id},
       log := s.log + o.events)
  }

  function Apply(s: Sys, step: Step): Sys {
    match step
    case Execute(q, now) => Follow(s, s.next, Begin(s.db, s.next, q, now)).(next := s.next + 1)
    case Answered(id, answer) =>
      if id in s.runs then Follow(s, id, Resume(s.db, id, s.runs[id], answer)) else s
    case Crash => s.(runs := map[], recovering := [], swept := false)
    case StartRecovery(order) =>
      if s.recovering == [] && ListsSent(s.db, order)
      then s.(recovering := Snapshot(s.db, order), swept := true) else s
    case RecoveryAnswered(reply) =>
      if s.recovering == [] then s
      else if reply.ConfirmerRejects? && !NoSignature(s.recovering[0])
      then s.(recovering := [], swept := false)
      else s.(db := Settle(s.db, s.recovering[0], if reply.Says? then reply.status else IsFailed),
              recovering := s.recovering[1..])
  }

  function Exec(s: Sys, steps: seq<Step>): Sys
    decreases |steps|
  {
    if steps == [] then s else Exec(Apply(s, steps[0]), steps[1..])
  }

  /** No execution of this process has a row in `sent`: what holds when `recover()` runs at boot. */
  predicate Quiet(s: Sys) {
    forall id | id in s.runs :: !s.runs[id].phase.Confirming? && !s.runs[id].phase.Settling?
  }

  /** Every `recover()` of the run is started while no live execution owns a sent row. */
  predicate BootRecovery(s: Sys, steps: seq<Step>)
    decreases |steps|
  {
    steps != [] ==>
      && (steps[0].StartRecovery? ==> Quiet(s))
      && BootRecovery(Apply(s, steps[0]), steps[1..])
  }
}
