/**
 * The process around the orchestrator object: calls come in, awaits are answered, the process crashes. Whatever
 * the sequence, the execution store and the calls in flight are where the step system leads.
 */
module TradingHost {
  import opened Options
  import opened Executions
  import opened ExecutionTheorems
  import opened LiveTrading

  /** What a step of one call, taken by itself, makes of the whole system. */
  function Joined(s: Sys, c: CallId, local: Sys): Sys {
    s.(rows := local.rows, log := s.log + local.log,
       calls := if 0 in local.calls then s.calls[c := local.calls[0]] else s.calls - {c})
  }

  lemma ApprovalIsLocal(s: Sys, c: CallId, call: Call, id: ExecutionId, from: TradeState, consumption: Consumption)
    ensures ApproveAndIssue(s, c, id, from, consumption)
         == Joined(s, c, ApproveAndIssue(One(s.quotes, s.rows, call), 0, id, from, consumption))
  {
  }

  lemma HeightIsLocal(s: Sys, c: CallId, height: int, hasLedger: bool, consumption: Consumption)
    requires c in s.calls && s.calls[c].SubmitHeight?
    ensures DoSubmitHeight(s, c, height, hasLedger, consumption)
         == Joined(s, c, DoSubmitHeight(One(s.quotes, s.rows, s.calls[c]), 0, height, hasLedger, consumption))
  {
    var call := s.calls[c];
    if call.id in s.rows && s.rows[call.id].quoteId in s.quotes {
      var x := s.rows[call.id];
      if height <= s.quotes[x.quoteId].lastValidBlockHeight {
        ApprovalIsLocal(s, c, call, call.id, call.from, consumption);
      }
    }
  }

  lemma SigningIsLocal(s: Sys, c: CallId, reply: SignedReply)
    requires c in s.calls && s.calls[c].SubmitSigning?
    ensures DoSigned(s, c, reply) == Joined(s, c, DoSigned(One(s.quotes, s.rows, s.calls[c]), 0, reply))
  {
  }

  lemma ResultIsLocal(s: Sys, c: CallId, result: ResultReply)
    requires c in s.calls && s.calls[c].RecoverResult?
    ensures DoResult(s, c, result) == Joined(s, c, DoResult(One(s.quotes, s.rows, s.calls[c]), 0, result))
  {
  }

  /** A step that resumes a call in flight. */
  predicate Resumes(step: Step) {
    || step.SubmitHeightAnswered? || step.SubmitReleased? || step.SubmitReservationAnswered? || step.Issued?
    || step.Signed? || step.Landed? || step.Committed? || step.ResultAnswered? || step.StatusAnswered?
    || step.ReconcileHeightAnswered? || step.ReconcileReleased? || step.Rejects?
  }

  class TradingProcess {
    const orchestrator: TradingOrchestrator
    var calls: map<CallId, Call>
    var next: CallId
    ghost var log: seq<Event>
    ghost var history: seq<Step>

    ghost function State(): Sys
      reads `calls, `next, `log, orchestrator, orchestrator.store
    {
      Sys(orchestrator.quotes, orchestrator.store.rows, calls, next, log)
    }

    ghost predicate Valid()
      reads this, orchestrator, orchestrator.store
    {
      State() == Exec(INIT, history)
    }

    constructor ()
      ensures Valid() && history == [] && fresh(orchestrator) && fresh(orchestrator.store)
    {
      var store := new ExecutionStore();
      var trading := new TradingOrchestrator(store, map[]);
      orchestrator := trading;
      calls, next := map[], 0;
      log, history := [], [];
    }

    /** A call goes on to its next await, or is over; `events` are the port calls it made. */
    method Await(c: CallId, call: Option<Call>, events: seq<Event>)
      modifies `calls, `log
      ensures calls == if call.Some? then old(calls)[c := call.value] else old(calls) - {c}
      ensures log == old(log) + events
    {
      calls := if call.Some? then calls[c := call.value] else calls - {c};
      log := log + events;
    }

    method Open(call: Option<Call>)
      modifies `calls, `next
      ensures if call.Some? then calls == old(calls)[old(next) := call.value] && next == old(next) + 1
              else calls == old(calls) && next == old(next)
    {
      if call.Some? {
        calls, next := calls[next := call.value], next + 1;
      }
    }

    method Submit(id: ExecutionId, now: int)
      modifies `calls, `next
      ensures State() == Apply(old(State()), Executions.Submit(id, now))
    {
      var call := orchestrator.Submit(id, now);
      Open(call);
    }

    method HeightAnswered(c: CallId, height: int, hasLedger: bool, consumption: Consumption)
      requires c in calls && calls[c].SubmitHeight?
      modifies `calls, `log, orchestrator.store
      ensures State() == Apply(old(State()), SubmitHeightAnswered(c, height, hasLedger, consumption))
    {
      HeightIsLocal(State(), c, height, hasLedger, consumption);
      var call, events := orchestrator.HeightAnswered(calls[c].id, calls[c].from, height, hasLedger, consumption);
      Await(c, call, events);
    }

    method ReservationAnswered(c: CallId, valid: bool, consumption: Consumption)
      requires c in calls && calls[c].SubmitReservation?
      modifies `calls, `log, orchestrator.store
      ensures State() == Apply(old(State()), SubmitReservationAnswered(c, valid, consumption))
    {
      var call, events := None, [];
      if valid {
        ghost var seen := calls[c];
        ghost var rows := orchestrator.store.rows;
        call, events := orchestrator.ConsumeAndIssue(calls[c].id, calls[c].from, consumption);
        assert Leaves(ApproveAndIssue(One(orchestrator.quotes, rows, seen), 0, seen.id, seen.from, consumption),
                      orchestrator.store.rows, call, events);
      }
      Await(c, call, events);
    }

    method Issued(c: CallId, authorization: string)
      requires c in calls && calls[c].SubmitIssuing?
      modifies `calls, `log, orchestrator.store
      ensures State() == Apply(old(State()), Executions.Issued(c, authorization))
    {
      var call, events := orchestrator.AuthorizationIssued(calls[c].id, authorization);
      Await(c, call, events);
    }

    method Signed(c: CallId, reply: SignedReply)
      requires c in calls && calls[c].SubmitSigning?
      modifies `calls, `log, orchestrator.store
      ensures State() == Apply(old(State()), Executions.Signed(c, reply))
    {
      SigningIsLocal(State(), c, reply);
      var call, events := orchestrator.SignedAnswered(calls[c].id, calls[c].authorization, reply);
      Await(c, call, events);
    }

    method Landed(c: CallId, signature: string)
      requires c in calls && (calls[c].SubmitBroadcasting? || calls[c].RecoverBroadcasting?)
      modifies `calls, `log, orchestrator.store
      ensures State() == Apply(old(State()), Executions.Landed(c, signature))
    {
      var call := orchestrator.BroadcastAnswered(calls[c], signature);
      Await(c, call, []);
    }

    method Committed(c: CallId)
      requires c in calls && (calls[c].SubmitCommitting? || calls[c].RecoverCommitting?)
      modifies `calls, `log, orchestrator.store
      ensures State() == Apply(old(State()), Executions.Committed(c))
    {
      orchestrator.CommitAnswered(calls[c]);
      Await(c, None, []);
    }

    method RecoverSigning(id: ExecutionId)
      modifies `calls, `next
      ensures State() == Apply(old(State()), Executions.RecoverSigning(id))
    {
      var rows := orchestrator.store.rows;
      if id in rows && rows[id].authorizationId.Some? {
        Open(Some(RecoverResult(id)));
      }
    }

    method ResultAnswered(c: CallId, result: ResultReply)
      requires c in calls && calls[c].RecoverResult?
      modifies `calls, `log, orchestrator.store
      ensures State() == Apply(old(State()), Executions.ResultAnswered(c, result))
    {
      ResultIsLocal(State(), c, result);
      var call, events := orchestrator.RecoveredResult(calls[c].id, result);
      Await(c, call, events);
    }

    method Reconcile(id: ExecutionId)
      modifies `calls, `next
      ensures State() == Apply(old(State()), Executions.Reconcile(id))
    {
      var rows := orchestrator.store.rows;
      if id in rows && rows[id].signature.Some? {
        Open(Some(ReconcileStatus(id, rows[id])));
      }
    }

    method StatusAnswered(c: CallId, status: Option<ChainStatus>, confirmedIsFinal: bool)
      requires c in calls && calls[c].ReconcileStatus?
      modifies `calls, `log, orchestrator.store
      ensures State() == Apply(old(State()), Executions.StatusAnswered(c, status, confirmedIsFinal))
    {
      var call := orchestrator.StatusAnswered(calls[c].id, calls[c].seen, status, confirmedIsFinal);
      Await(c, call, []);
    }

    method ReconcileHeightAnswered(c: CallId, height: int)
      requires c in calls && calls[c].ReconcileHeight?
      modifies `calls, `log, orchestrator.store
      ensures State() == Apply(old(State()), Executions.ReconcileHeightAnswered(c, height))
    {
      var call := orchestrator.ReconcileHeightAnswered(calls[c].id, calls[c].seen, height);
      Await(c, call, []);
    }

    /** The ledger has let the reservation go: the row is closed, from the state the call read. */
    method ReservationReleased(c: CallId)
      requires c in calls && (calls[c].SubmitExpiring? || calls[c].ReconcileReleasing?)
      modifies `calls, `log, orchestrator.store
      ensures State() == Apply(old(State()), if old(calls)[c].SubmitExpiring? then SubmitReleased(c) else ReconcileReleased(c))
    {
      var call := calls[c];
      if call.SubmitExpiring? {
        var ok := orchestrator.MoveState(call.id, call.from, Expired);
      } else {
        var ok := orchestrator.MoveState(call.id, call.seen.state, Dropped);
      }
      Await(c, None, []);
    }

    method Rejects(c: CallId)
      requires c in calls
      modifies `calls, `log, orchestrator.store
      ensures State() == Apply(old(State()), Executions.Rejects(c))
    {
      var call := calls[c];
      ghost var before := State();
      if call.SubmitIssuing? || call.SubmitSigning? || call.SubmitBroadcasting? || call.SubmitCommitting? {
        orchestrator.MarkUnresolved(call.id);
        assert orchestrator.store.rows == SubmitFails(before, c, call.id).rows;
      }
      Await(c, None, []);
    }

    method Answer(step: Step)
      requires Resumes(step)
      modifies `calls, `log, orchestrator.store
      ensures State() == Apply(old(State()), step)
    {
      match step
      case SubmitHeightAnswered(c, h, l, a) => if c in calls && calls[c].SubmitHeight? { HeightAnswered(c, h, l, a); }
      case SubmitReleased(c) => if c in calls && calls[c].SubmitExpiring? { ReservationReleased(c); }
      case SubmitReservationAnswered(c, valid, a) =>
        if c in calls && calls[c].SubmitReservation? { ReservationAnswered(c, valid, a); }
      case Issued(c, auth) => if c in calls && calls[c].SubmitIssuing? { Issued(c, auth); }
      case Signed(c, reply) => if c in calls && calls[c].SubmitSigning? { Signed(c, reply); }
      case Landed(c, sig) =>
        if c in calls && (calls[c].SubmitBroadcasting? || calls[c].RecoverBroadcasting?) { Landed(c, sig); }
      case Committed(c) => if c in calls && (calls[c].SubmitCommitting? || calls[c].RecoverCommitting?) { Committed(c); }
      case ResultAnswered(c, r) => if c in calls && calls[c].RecoverResult? { ResultAnswered(c, r); }
      case StatusAnswered(c, st, f) => if c in calls && calls[c].ReconcileStatus? { StatusAnswered(c, st, f); }
      case ReconcileHeightAnswered(c, h) => if c in calls && calls[c].ReconcileHeight? { ReconcileHeightAnswered(c, h); }
      case ReconcileReleased(c) => if c in calls && calls[c].ReconcileReleasing? { ReservationReleased(c); }
      case Rejects(c) => if c in calls { Rejects(c); }
    }

    method Do(step: Step)
      modifies `calls, `next, `log, orchestrator, orchestrator.store
      ensures State() == Apply(old(State()), step)
    {
      if Resumes(step) {
        Answer(step);
        return;
      }
      match step
      case PutQuote(q, quote) => orchestrator.PutQuote(q, quote);
      case Create(id, q, key, actor, dry, required, reservation) =>
        orchestrator.CreateExecution(id, q, key, actor, dry, required, reservation);
      case Refresh(id, approval) => orchestrator.RefreshApproval(id, approval);
      case Submit(id, now) => Submit(id, now);
      case RecoverSigning(id) => RecoverSigning(id);
      case Recover(id) => var ok := orchestrator.MoveState(id, Submitting, ReconciliationRequired);
      case Reconcile(id) => Reconcile(id);
      case Crash => calls := map[];
    }

    /** Any sequence of calls, answers and crashes is a run of the step system. */
    method Drive(steps: seq<Step>)
      requires Valid()
      modifies this, orchestrator, orchestrator.store
      ensures Valid() && history == old(history) + steps
    {
      for i := 0 to |steps|
        invariant Valid() && history == old(history) + steps[..i]
      {
        OneMore(INIT, history, steps[i]);
        Do(steps[i]);
        history := history + [steps[i]];
        assert steps[..i + 1] == steps[..i] + [steps[i]];
      }
      assert steps[..|steps|] == steps;
    }

    /** What the lifecycle promises, about the objects, at every point. */
    lemma Keeps()
      requires Valid()
      ensures Inv(State())
    {
      RunKeeps(INIT, history);
    }
  }
}
