/**
 * The orchestrator as the source writes it (src/live-trading/index.ts): an object that drives the execution
 * store, each method the code between two awaits, proved against the steps of `Executions`.
 */
module LiveTrading {
  import opened Options
  import opened Executions

  /** The step system with one call in flight. */
  function One(quotes: map<QuoteId, Quote>, rows: Rows, call: Call): Sys {
    Sys(quotes, rows, map[0 := call], 1, [])
  }

  function Idle(quotes: map<QuoteId, Quote>, rows: Rows): Sys {
    Sys(quotes, rows, map[], 0, [])
  }

  /** What a step leaves: the rows, the await it is suspended on, if any, and the port calls it made. */
  predicate Leaves(after: Sys, rows: Rows, next: Option<Call>, events: seq<Event>) {
    && after.rows == rows && after.log == events
    && next == (if 0 in after.calls then Some(after.calls[0]) else None)
  }

  class TradingOrchestrator {
    const store: ExecutionStore
    var quotes: map<QuoteId, Quote>

    constructor (store: ExecutionStore, quotes: map<QuoteId, Quote>)
      ensures this.store == store && this.quotes == quotes
    {
      this.store, this.quotes := store, quotes;
    }

    /** Rewrites one field of a row found in `from`; a missing row or another state throws and changes nothing. */
    method MoveState(id: ExecutionId, from: TradeState, state: TradeState) returns (ok: bool)
      modifies store
      ensures ok == MayTransition(old(store.rows), id, from)
      ensures store.rows == Move(Idle(quotes, old(store.rows)), id, from, state).rows
    {
      ok := false;
      if id in store.rows {
        ok := store.MoveTo(id, from, store.rows[id].(state := state));
      }
    }

    /** A quote is written once. */
    method PutQuote(quoteId: QuoteId, quote: Quote)
      modifies `quotes
      ensures quotes == if quoteId in old(quotes) then old(quotes) else old(quotes)[quoteId := quote]
    {
      if quoteId !in quotes {
        quotes := quotes[quoteId := quote];
      }
    }

    /** The end of `execute`: the row, then its approval where one is asked for. */
    method CreateExecution(id: ExecutionId, quoteId: QuoteId, key: string, actor: string, dryRun: bool,
                           approvalRequired: bool, reservation: Option<string>)
      modifies store
      ensures store.rows ==
        DoCreate(Idle(quotes, old(store.rows)), id, quoteId, key, actor, dryRun, approvalRequired, reservation).rows
    {
      if quoteId !in quotes || (!dryRun && !quotes[quoteId].exact) {
        return;
      }
      var x := NewExecution(quoteId, quotes[quoteId], key, actor, dryRun, reservation);
      var ok := store.Create(id, x);
      if ok && !dryRun {
        ok := store.MoveTo(id, AwaitingApproval,
                           if approvalRequired then x.(approvalId := Some(id)) else x.(state := Approved));
      }
    }

    method RefreshApproval(id: ExecutionId, approval: ApprovalStatus)
      modifies store
      ensures store.rows == DoRefresh(Idle(quotes, old(store.rows)), id, approval).rows
    {
      if id !in store.rows || store.rows[id].approvalId.None? || store.rows[id].state != AwaitingApproval {
        return;
      }
      if approval.DeniedStatus? {
        var ok := MoveState(id, AwaitingApproval, Denied);
      } else if approval.ApprovedStatus? {
        var ok := MoveState(id, AwaitingApproval, Approved);
      }
    }

    method Submit(id: ExecutionId, now: int) returns (next: Option<Call>)
      ensures Leaves(DoSubmit(Idle(quotes, store.rows), id, now), store.rows, next, [])
    {
      if id !in store.rows {
        return None;
      }
      var x := store.rows[id];
      if x.state != Approved && x.state != Signing {
        return None;
      }
      if x.quoteId !in quotes || !quotes[x.quoteId].exact {
        return None;
      }
      if quotes[x.quoteId].expiresAt <= now {
        return None;
      }
      next := Some(SubmitHeight(id, x.state));
    }

    /** Consumes the approval, moves an approved row to `signing`, and asks for an authorization. */
    method ConsumeAndIssue(id: ExecutionId, from: TradeState, consumption: Consumption)
      returns (next: Option<Call>, events: seq<Event>)
      modifies store
      ensures forall call: Call ::
        Leaves(ApproveAndIssue(One(quotes, old(store.rows), call), 0, id, from, consumption), store.rows, next, events)
    {
      events, next := [], None;
      if id !in store.rows || store.rows[id].approvalId.None? || consumption.ConsumeThrows? {
        return;
      }
      events := [ApprovalConsumed(id)];
      if from == Approved {
        var ok := MoveState(id, Approved, Signing);
        if !ok {
          return;
        }
      }
      next := Some(SubmitIssuing(id));
    }

    /** The blockhash fence, then the reservation, then the approval. */
    method HeightAnswered(id: ExecutionId, from: TradeState, height: int, hasLedger: bool, consumption: Consumption)
      returns (next: Option<Call>, events: seq<Event>)
      modifies store
      ensures Leaves(DoSubmitHeight(One(quotes, old(store.rows), SubmitHeight(id, from)), 0, height, hasLedger, consumption),
                     store.rows, next, events)
    {
      events, next := [], None;
      if id !in store.rows || store.rows[id].quoteId !in quotes {
        return;
      }
      var x := store.rows[id];
      if height > quotes[x.quoteId].lastValidBlockHeight {
        if x.reservationId.Some? {
          next := Some(SubmitExpiring(id, from));
        } else {
          var ok := MoveState(id, from, Expired);
        }
      } else if x.reservationId.Some? && hasLedger {
        next := Some(SubmitReservation(id, from));
      } else {
        next, events := ConsumeAndIssue(id, from, consumption);
      }
    }

    /** The catch of `submit`. */
    method MarkUnresolved(id: ExecutionId)
      modifies store
      ensures forall s: Sys, c: CallId :: s.rows == old(store.rows) ==> store.rows == SubmitFails(s, c, id).rows
    {
      if id in store.rows && store.rows[id].state == Submitting {
        var ok := MoveState(id, Submitting, ReconciliationRequired);
      }
    }

    method AuthorizationIssued(id: ExecutionId, authorization: string) returns (next: Option<Call>, events: seq<Event>)
      modifies store
      ensures Leaves(DoIssued(One(quotes, old(store.rows), SubmitIssuing(id)), 0, authorization), store.rows, next, events)
    {
      events, next := [], None;
      if id !in store.rows || store.rows[id].quoteId !in quotes {
        MarkUnresolved(id);
        return;
      }
      var x := store.rows[id];
      var ok := store.MoveTo(id, Signing, x.(authorizationId := Some(authorization)));
      if !ok {
        MarkUnresolved(id);
        return;
      }
      events := [SignRequested(id, quotes[x.quoteId].transaction)];
      next := Some(SubmitSigning(id, authorization));
    }

    /** The signature is stored first; the broadcast follows unless the signer already made it. */
    method SignedAnswered(id: ExecutionId, authorization: string, reply: SignedReply)
      returns (next: Option<Call>, events: seq<Event>)
      modifies store
      ensures Leaves(DoSigned(One(quotes, old(store.rows), SubmitSigning(id, authorization)), 0, reply), store.rows, next, events)
    {
      events, next := [], None;
      if id !in store.rows || store.rows[id].quoteId !in quotes {
        MarkUnresolved(id);
        return;
      }
      var x := store.rows[id];
      var ok := store.MoveTo(id, Signing,
        WithSignature(x, quotes[x.quoteId], reply.signature).(authorizationId := Some(authorization)));
      if !ok {
        MarkUnresolved(id);
        return;
      }
      events := [SignatureStored(id, reply.signature)];
      if reply.sent.None? {
        events := events + [BroadcastRequested(id, reply.signature)];
        next := Some(SubmitBroadcasting(id, reply.signature));
      } else if reply.sent.value != reply.signature {
        MarkUnresolved(id);
      } else {
        next := Some(SubmitCommitting(id, reply.signature));
      }
    }

    method BroadcastAnswered(call: Call, landed: string) returns (next: Option<Call>)
      requires call.SubmitBroadcasting? || call.RecoverBroadcasting?
      modifies store
      ensures Leaves(DoLanded(One(quotes, old(store.rows), call), 0, landed), store.rows, next, [])
    {
      next := None;
      if landed != call.signature {
        MarkUnresolved(call.id);
      } else if call.SubmitBroadcasting? {
        next := Some(SubmitCommitting(call.id, call.signature));
      } else {
        next := Some(RecoverCommitting(call.id, call.signature));
      }
    }

    method CommitAnswered(call: Call)
      requires call.SubmitCommitting? || call.RecoverCommitting?
      modifies store
      ensures Leaves(DoCommitted(One(quotes, old(store.rows), call), 0), store.rows, None, [])
    {
      if call.id in store.rows {
        var ok := store.MoveTo(call.id, Submitting,
                               store.rows[call.id].(state := Broadcast, signature := Some(call.signature)));
      }
    }

    /** The retrieved signature is stored and broadcast once; nothing is signed again. */
    method RecoveredResult(id: ExecutionId, result: ResultReply) returns (next: Option<Call>, events: seq<Event>)
      modifies store
      ensures Leaves(DoResult(One(quotes, old(store.rows), RecoverResult(id)), 0, result), store.rows, next, events)
    {
      events, next := [], None;
      if result.ResultUnavailable? {
        return;
      }
      if result.ResultExpired? {
        if id in store.rows && store.rows[id].reservationId.Some? {
          next := Some(SubmitExpiring(id, Signing));
        } else {
          var ok := MoveState(id, Signing, Expired);
        }
        return;
      }
      if id !in store.rows || store.rows[id].quoteId !in quotes {
        return;
      }
      var x := store.rows[id];
      var ok := store.MoveTo(id, Signing, WithSignature(x, quotes[x.quoteId], result.signature));
      if ok {
        events := [SignatureStored(id, result.signature), BroadcastRequested(id, result.signature)];
        next := Some(RecoverBroadcasting(id, result.signature));
      }
    }

    method StatusAnswered(id: ExecutionId, seen: Execution, status: Option<ChainStatus>, confirmedIsFinal: bool)
      returns (next: Option<Call>)
      modifies store
      ensures Leaves(DoStatus(One(quotes, old(store.rows), ReconcileStatus(id, seen)), 0, status, confirmedIsFinal),
                     store.rows, next, [])
    {
      next := None;
      if status.None? {
        if seen.lastValidBlockHeight.Some? {
          next := Some(ReconcileHeight(id, seen));
        } else if seen.state != ReconciliationRequired {
          var ok := MoveState(id, seen.state, ReconciliationRequired);
        }
        return;
      }
      var state := Confirmed;
      if status.value.StatusError? {
        state := Failed;
      } else if status.value.StatusFinalized? || (confirmedIsFinal && status.value.StatusConfirmed?) {
        state := Finalized;
      }
      if id in store.rows {
        var ok := store.MoveTo(id, seen.state, store.rows[id].(state := state, signature := seen.signature));
      }
    }

    method ReconcileHeightAnswered(id: ExecutionId, seen: Execution, height: int) returns (next: Option<Call>)
      modifies store
      ensures Leaves(DoReconcileHeight(One(quotes, old(store.rows), ReconcileHeight(id, seen)), 0, height),
                     store.rows, next, [])
    {
      next := None;
      if seen.lastValidBlockHeight.Some? && height > seen.lastValidBlockHeight.value {
        if seen.reservationId.Some? {
          next := Some(ReconcileReleasing(id, seen));
        } else {
          var ok := MoveState(id, seen.state, Dropped);
        }
      } else if seen.state != ReconciliationRequired {
        var ok := MoveState(id, seen.state, ReconciliationRequired);
      }
    }
  }
}
