/**
 * The durable execution lifecycle as a step system (src/live-trading/index.ts): `execute`, `refreshApproval`,
 * `submit`, `recoverSigning`, `recover` and `reconcile` of `TradingOrchestrator` interleaving over one
 * `ExecutionStore`, with crashes. The RPC, the signer, the authorization issuer, the approval engine and the
 * reservation ledger are ports whose answers are arbitrary.
 */
module Executions {
  import opened Options

  datatype TradeState =
    | AwaitingApproval | Approved | DryRun | Signing | Submitting | ReconciliationRequired
    | Broadcast | Confirmed | Finalized | Failed | Denied | Expired | Dropped

  /** What a quote pins; `exact` when it carries the request and its simulation evidence. */
  datatype Quote = Quote(
    transaction: string,
    messageHash: string,
    lastValidBlockHeight: int,
    expiresAt: int,
    exact: bool)

  type ExecutionId = nat
  type QuoteId = nat

  datatype Execution = Execution(
    version: nat,
    quoteId: QuoteId,
    idempotencyKey: string,
    actor: string,
    dryRun: bool,
    state: TradeState,
    approvalId: Option<ExecutionId>,
    authorizationId: Option<string>,
    reservationId: Option<string>,
    messageHash: Option<string>,
    signature: Option<string>,
    lastValidBlockHeight: Option<int>)

  type Rows = map<ExecutionId, Execution>

  predicate MayTransition(rows: Rows, id: ExecutionId, from: TradeState) {
    id in rows && rows[id].state == from
  }

  /** Write `x` over a row found in state `from`, one version up. */
  function Transition(rows: Rows, id: ExecutionId, from: TradeState, x: Execution): Rows {
    if MayTransition(rows, id, from) then rows[id := x.(version := rows[id].version + 1)] else rows
  }

  /** The table with its compare-and-set, updated in place. */
  class ExecutionStore {
    var rows: Rows

    constructor ()
      ensures rows == map[]
    {
      rows := map[];
    }

    /** UNIQUE on the idempotency key makes the insert throw. */
    method Create(id: ExecutionId, x: Execution) returns (ok: bool)
      modifies this
      ensures ok <==> id !in old(rows) && forall j | j in old(rows) :: old(rows)[j].idempotencyKey != x.idempotencyKey
      ensures rows == if ok then old(rows)[id := x] else old(rows)
    {
      ok := id !in rows && forall j | j in rows :: rows[j].idempotencyKey != x.idempotencyKey;
      if ok {
        rows := rows[id := x];
      }
    }

    /** `ok` is false where the source throws `execution_not_found` or `state conflict`. */
    method MoveTo(id: ExecutionId, from: TradeState, x: Execution) returns (ok: bool)
      modifies this
      ensures ok == MayTransition(old(rows), id, from)
      ensures rows == Transition(old(rows), id, from, x)
    {
      ok := id in rows && rows[id].state == from;
      if ok {
        rows := rows[id := x.(version := rows[id].version + 1)];
      }
    }
  }

  // ---- calls and their awaits --------------------------------------------------------------------

  type CallId = nat

  /** `from` is the state the call read; `seen` the row a reconciliation read. */
  datatype Call =
    | SubmitHeight(id: ExecutionId, from: TradeState)
    | SubmitExpiring(id: ExecutionId, from: TradeState)
    | SubmitReservation(id: ExecutionId, from: TradeState)
    | SubmitIssuing(id: ExecutionId)
    | SubmitSigning(id: ExecutionId, authorization: string)
    | SubmitBroadcasting(id: ExecutionId, signature: string)
    | SubmitCommitting(id: ExecutionId, signature: string)
    | RecoverResult(id: ExecutionId)
    | RecoverBroadcasting(id: ExecutionId, signature: string)
    | RecoverCommitting(id: ExecutionId, signature: string)
    | ReconcileStatus(id: ExecutionId, seen: Execution)
    | ReconcileHeight(id: ExecutionId, seen: Execution)
    | ReconcileReleasing(id: ExecutionId, seen: Execution)

  datatype Event =
    | ApprovalConsumed(id: ExecutionId)
    | SignRequested(id: ExecutionId, transaction: string)
    | SignatureStored(id: ExecutionId, signature: string)
    | BroadcastRequested(id: ExecutionId, signature: string)

  datatype Sys = Sys(
    quotes: map<QuoteId, Quote>,
    rows: Rows,
    calls: map<CallId, Call>,
    nextCall: CallId,
    log: seq<Event>)

  const INIT := Sys(map[], map[], map[], 0, [])

  datatype Consumption = AlreadyConsumed | ConsumedNow | ConsumeThrows
  datatype ApprovalStatus = PendingStatus | ApprovedStatus | DeniedStatus

  /** A signer response that passed `assertSignedTransaction`; `sent` when the signer broadcast it itself. */
  datatype SignedReply = SignedReply(signature: string, sent: Option<string>)
  datatype ResultReply = ResultExpired | ResultUnavailable | ResultSigned(signature: string)
  datatype ChainStatus = StatusError | StatusFinalized | StatusConfirmed | StatusProcessed

  datatype Step =
    | PutQuote(quoteId: QuoteId, quote: Quote)
    | Create(id: ExecutionId, quoteId: QuoteId, key: string, actor: string, dryRun: bool,
             approvalRequired: bool, reservation: Option<string>)
    | Refresh(id: ExecutionId, approval: ApprovalStatus)
    | Submit(id: ExecutionId, now: int)
    | SubmitHeightAnswered(call: CallId, height: int, hasLedger: bool, consumption: Consumption)
    | SubmitReleased(call: CallId)
    | SubmitReservationAnswered(call: CallId, valid: bool, consumption: Consumption)
    | Issued(call: CallId, authorization: string)
    | Signed(call: CallId, reply: SignedReply)
    | Landed(call: CallId, signature: string)
    | Committed(call: CallId)
    | RecoverSigning(id: ExecutionId)
    | ResultAnswered(call: CallId, result: ResultReply)
    | Recover(id: ExecutionId)
    | Reconcile(id: ExecutionId)
    | StatusAnswered(call: CallId, status: Option<ChainStatus>, confirmedIsFinal: bool)
    | ReconcileHeightAnswered(call: CallId, height: int)
    | ReconcileReleased(call: CallId)
    | Rejects(call: CallId)
    | Crash

  function Open(s: Sys, call: Call): Sys {
    s.(calls := s.calls[s.nextCall := call], nextCall := s.nextCall + 1)
  }

  function Close(s: Sys, c: CallId): Sys {
    s.(calls := s.calls - {c})
  }

  function Await(s: Sys, c: CallId, call: Call): Sys {
    s.(calls := s.calls[c := call])
  }

  function Log(s: Sys, e: Event): Sys {
    s.(log := s.log + [e])
  }

  /** Move a row to `state` from `from` if it is still there; a conflict throws and changes nothing. */
  function Move(s: Sys, id: ExecutionId, from: TradeState, state: TradeState): Sys {
    if id in s.rows then s.(rows := Transition(s.rows, id, from, s.rows[id].(state := state))) else s
  }

  function NewExecution(quoteId: QuoteId, quote: Quote, key: string, actor: string, dryRun: bool,
                        reservation: Option<string>): Execution
  {
    Execution(0, quoteId, key, actor, dryRun, if dryRun then DryRun else AwaitingApproval, None, None,
              if dryRun then None else reservation, None, None, if dryRun then None else Some(quote.lastValidBlockHeight))
  }

  /** The end of `execute`: one row per idempotency key, approved at once where no approval is required. */
  function DoCreate(s: Sys, id: ExecutionId, quoteId: QuoteId, key: string, actor: string, dryRun: bool,
                    approvalRequired: bool, reservation: Option<string>): Sys
  {
    if id in s.rows || quoteId !in s.quotes || (exists j | j in s.rows :: s.rows[j].idempotencyKey == key) then s
    else if !dryRun && !s.quotes[quoteId].exact then s
    else
      var x := NewExecution(quoteId, s.quotes[quoteId], key, actor, dryRun, reservation);
      var created := s.rows[id := x];
      s.(rows := if dryRun then created
                 else if approvalRequired
                 then Transition(created, id, AwaitingApproval, x.(approvalId := Some(id)))
                 else Transition(created, id, AwaitingApproval, x.(state := Approved)))
  }

  /** Approve, deny and refresh all end here. */
  function DoRefresh(s: Sys, id: ExecutionId, approval: ApprovalStatus): Sys {
    if id !in s.rows || s.rows[id].approvalId.None? then s
    else if approval.DeniedStatus? then Move(s, id, AwaitingApproval, Denied)
    else if approval.ApprovedStatus? then Move(s, id, AwaitingApproval, Approved)
    else s
  }

  function DoSubmit(s: Sys, id: ExecutionId, now: int): Sys {
    if id !in s.rows then s
    else
      var x := s.rows[id];
      if x.state != Approved && x.state != Signing then s
      else if x.quoteId !in s.quotes || !s.quotes[x.quoteId].exact || s.quotes[x.quoteId].expiresAt <= now then s
      else Open(s, SubmitHeight(id, x.state))
  }

  /** Approval, then the move to `signing`, then the authorization request. */
  function ApproveAndIssue(s: Sys, c: CallId, id: ExecutionId, from: TradeState, consumption: Consumption): Sys {
    if id !in s.rows || s.rows[id].approvalId.None? || consumption.ConsumeThrows? then Close(s, c)
    else
      var t := Log(s, ApprovalConsumed(id));
      if from == Approved && !MayTransition(s.rows, id, Approved) then Close(t, c)
      else Await(if from == Approved then Move(t, id, Approved, Signing) else t, c, SubmitIssuing(id))
  }

  function DoSubmitHeight(s: Sys, c: CallId, height: int, hasLedger: bool, consumption: Consumption): Sys
    requires c in s.calls && s.calls[c].SubmitHeight?
  {
    var call := s.calls[c];
    if call.id !in s.rows || s.rows[call.id].quoteId !in s.quotes then Close(s, c)
    else
      var x := s.rows[call.id];
      if height > s.quotes[x.quoteId].lastValidBlockHeight then
        if x.reservationId.Some? then Await(s, c, SubmitExpiring(call.id, call.from))
        else Close(Move(s, call.id, call.from, Expired), c)
      else if x.reservationId.Some? && hasLedger then Await(s, c, SubmitReservation(call.id, call.from))
      else ApproveAndIssue(s, c, call.id, call.from, consumption)
  }

  /** The catch of `submit`: a row left in `submitting` becomes `reconciliation-required`. */
  function SubmitFails(s: Sys, c: CallId, id: ExecutionId): Sys {
    Close(Move(s, id, Submitting, ReconciliationRequired), c)
  }

  function DoIssued(s: Sys, c: CallId, authorization: string): Sys
    requires c in s.calls && s.calls[c].SubmitIssuing?
  {
    var id := s.calls[c].id;
    if !MayTransition(s.rows, id, Signing) || s.rows[id].quoteId !in s.quotes then SubmitFails(s, c, id)
    else
      var t := s.(rows := Transition(s.rows, id, Signing, s.rows[id].(authorizationId := Some(authorization))));
      Await(Log(t, SignRequested(id, s.quotes[s.rows[id].quoteId].transaction)), c, SubmitSigning(id, authorization))
  }

  /** The row a stored signature makes of `x`. */
  function WithSignature(x: Execution, quote: Quote, signature: string): Execution {
    x.(state := Submitting, messageHash := Some(quote.messageHash), signature := Some(signature),
       lastValidBlockHeight := Some(quote.lastValidBlockHeight))
  }

  /** Persist the signature, and only then broadcast, unless the signer already did. */
  function DoSigned(s: Sys, c: CallId, reply: SignedReply): Sys
    requires c in s.calls && s.calls[c].SubmitSigning?
  {
    var call := s.calls[c];
    if !MayTransition(s.rows, call.id, Signing) || s.rows[call.id].quoteId !in s.quotes then SubmitFails(s, c, call.id)
    else
      var x := s.rows[call.id];
      var stored := Log(s.(rows := Transition(s.rows, call.id, Signing,
                            WithSignature(x, s.quotes[x.quoteId], reply.signature)
                              .(authorizationId := Some(call.authorization)))),
                        SignatureStored(call.id, reply.signature));
      if reply.sent.None? then
        Await(Log(stored, BroadcastRequested(call.id, reply.signature)), c, SubmitBroadcasting(call.id, reply.signature))
      else if reply.sent.value != reply.signature then SubmitFails(stored, c, call.id)
      else Await(stored, c, SubmitCommitting(call.id, reply.signature))
  }

  function DoLanded(s: Sys, c: CallId, signature: string): Sys
    requires c in s.calls && (s.calls[c].SubmitBroadcasting? || s.calls[c].RecoverBroadcasting?)
  {
    var call := s.calls[c];
    if signature != call.signature then SubmitFails(s, c, call.id)
    else if call.SubmitBroadcasting? then Await(s, c, SubmitCommitting(call.id, call.signature))
    else Await(s, c, RecoverCommitting(call.id, call.signature))
  }

  function DoCommitted(s: Sys, c: CallId): Sys
    requires c in s.calls && (s.calls[c].SubmitCommitting? || s.calls[c].RecoverCommitting?)
  {
    var call := s.calls[c];
    if MayTransition(s.rows, call.id, Submitting) then
      Close(s.(rows := Transition(s.rows, call.id, Submitting,
                 s.rows[call.id].(state := Broadcast, signature := Some(call.signature)))), c)
    else Close(s, c)
  }

  /** The row it is given may be stale by now; a row without an authorization goes through `Submit` instead. */
  function DoRecoverSigning(s: Sys, id: ExecutionId): Sys {
    if id !in s.rows || s.rows[id].authorizationId.None? then s else Open(s, RecoverResult(id))
  }

  /** The signature is retrieved, never made again; then persisted, then broadcast. */
  function DoResult(s: Sys, c: CallId, result: ResultReply): Sys
    requires c in s.calls && s.calls[c].RecoverResult?
  {
    var id := s.calls[c].id;
    match result
    case ResultUnavailable => Close(s, c)
    case ResultExpired =>
      if id in s.rows && s.rows[id].reservationId.Some? then Await(s, c, SubmitExpiring(id, Signing))
      else Close(Move(s, id, Signing, Expired), c)
    case ResultSigned(signature) =>
      if !MayTransition(s.rows, id, Signing) || s.rows[id].quoteId !in s.quotes then Close(s, c)
      else
        var x := s.rows[id];
        var stored := Log(s.(rows := Transition(s.rows, id, Signing,
                              WithSignature(x, s.quotes[x.quoteId], signature))),
                          SignatureStored(id, signature));
        Await(Log(stored, BroadcastRequested(id, signature)), c, RecoverBroadcasting(id, signature))
  }

  function DoReconcile(s: Sys, id: ExecutionId): Sys {
    if id !in s.rows || s.rows[id].signature.None? then s else Open(s, ReconcileStatus(id, s.rows[id]))
  }

  /** Nothing seen on chain: keep looking. */
  function Unseen(s: Sys, c: CallId, id: ExecutionId, seen: Execution): Sys {
    Close(if seen.state == ReconciliationRequired then s else Move(s, id, seen.state, ReconciliationRequired), c)
  }

  /** What the chain says about the signature the reconciliation read. */
  function Observe(s: Sys, c: CallId, id: ExecutionId, seen: Execution, state: TradeState): Sys {
    Close(if MayTransition(s.rows, id, seen.state)
          then s.(rows := Transition(s.rows, id, seen.state,
                            s.rows[id].(state := state, signature := seen.signature)))
          else s, c)
  }

  function DoStatus(s: Sys, c: CallId, status: Option<ChainStatus>, confirmedIsFinal: bool): Sys
    requires c in s.calls && s.calls[c].ReconcileStatus?
  {
    var call := s.calls[c];
    if status.None? then
      if call.seen.lastValidBlockHeight.Some? then Await(s, c, ReconcileHeight(call.id, call.seen))
      else Unseen(s, c, call.id, call.seen)
    else
      var state := if status.value.StatusError? then Failed
                   else if status.value.StatusFinalized? || (confirmedIsFinal && status.value.StatusConfirmed?)
                   then Finalized else Confirmed;
      Observe(s, c, call.id, call.seen, state)
  }

  function DoReconcileHeight(s: Sys, c: CallId, height: int): Sys
    requires c in s.calls && s.calls[c].ReconcileHeight?
  {
    var call := s.calls[c];
    if call.seen.lastValidBlockHeight.Some? && height > call.seen.lastValidBlockHeight.value then
      if call.seen.reservationId.Some? then Await(s, c, ReconcileReleasing(call.id, call.seen))
      else Close(Move(s, call.id, call.seen.state, Dropped), c)
    else Unseen(s, c, call.id, call.seen)
  }

  /** A rejected await: `submit` past its `try` marks a submitted row, everything else just throws. */
  function DoRejects(s: Sys, c: CallId): Sys
    requires c in s.calls
  {
    var call := s.calls[c];
    if call.SubmitIssuing? || call.SubmitSigning? || call.SubmitBroadcasting? || call.SubmitCommitting?
    then SubmitFails(s, c, call.id) else Close(s, c)
  }

  function Apply(s: Sys, step: Step): Sys {
    match step
    case PutQuote(q, quote) => if q in s.quotes then s else s.(quotes := s.quotes[q := quote])
    case Create(id, q, key, actor, dry, required, reservation) => DoCreate(s, id, q, key, actor, dry, required, reservation)
    case Refresh(id, approval) => DoRefresh(s, id, approval)
    case Submit(id, now) => DoSubmit(s, id, now)
    case SubmitHeightAnswered(c, h, l, a) => if c in s.calls && s.calls[c].SubmitHeight? then DoSubmitHeight(s, c, h, l, a) else s
    case SubmitReleased(c) =>
      if c in s.calls && s.calls[c].SubmitExpiring? then Close(Move(s, s.calls[c].id, s.calls[c].from, Expired), c) else s
    case SubmitReservationAnswered(c, valid, a) =>
      if c in s.calls && s.calls[c].SubmitReservation?
      then if valid then ApproveAndIssue(s, c, s.calls[c].id, s.calls[c].from, a) else Close(s, c)
      else s
    case Issued(c, auth) => if c in s.calls && s.calls[c].SubmitIssuing? then DoIssued(s, c, auth) else s
    case Signed(c, reply) => if c in s.calls && s.calls[c].SubmitSigning? then DoSigned(s, c, reply) else s
    case Landed(c, sig) =>
      if c in s.calls && (s.calls[c].SubmitBroadcasting? || s.calls[c].RecoverBroadcasting?) then DoLanded(s, c, sig) else s
    case Committed(c) =>
      if c in s.calls && (s.calls[c].SubmitCommitting? || s.calls[c].RecoverCommitting?) then DoCommitted(s, c) else s
    case RecoverSigning(id) => DoRecoverSigning(s, id)
    case ResultAnswered(c, r) => if c in s.calls && s.calls[c].RecoverResult? then DoResult(s, c, r) else s
    case Recover(id) => Move(s, id, Submitting, ReconciliationRequired)
    case Reconcile(id) => DoReconcile(s, id)
    case StatusAnswered(c, st, f) => if c in s.calls && s.calls[c].ReconcileStatus? then DoStatus(s, c, st, f) else s
    case ReconcileHeightAnswered(c, h) => if c in s.calls && s.calls[c].ReconcileHeight? then DoReconcileHeight(s, c, h) else s
    case ReconcileReleased(c) =>
      if c in s.calls && s.calls[c].ReconcileReleasing?
      then Close(Move(s, s.calls[c].id, s.calls[c].seen.state, Dropped), c) else s
    case Rejects(c) => if c in s.calls then DoRejects(s, c) else s
    case Crash => s.(calls := map[])
  }

  function Exec(s: Sys, steps: seq<Step>): Sys
    decreases |steps|
  {
    if steps == [] then s else Exec(Apply(s, steps[0]), steps[1..])
  }

  /** A run with one more step is the run and then the step. */
  lemma {:induction false} OneMore(s: Sys, history: seq<Step>, step: Step)
    ensures Exec(s, history + [step]) == Apply(Exec(s, history), step)
    decreases |history|
  {
    if history == [] {
      assert ([] + [step])[1..] == [] && [] + [step] == [step];
      assert [step][1..] == [];
    } else {
      assert (history + [step])[1..] == history[1..] + [step];
      OneMore(Apply(s, history[0]), history[1..], step);
    }
  }
}
