/**
 * The process around the signer object: requests come in, awaits are answered, the process restarts. Whatever
 * the sequence, the replay store and the calls in flight are where the step system leads.
 */
module SigningHost {
  import opened Options
  import opened Replay
  import opened Signer
  import opened SignerInvariants
  import opened SigningService

  class SignerHost {
    const service: SignerService
    var calls: map<CallId, Call>
    var next: CallId
    ghost var log: seq<Event>
    ghost var history: seq<Step>

    ghost function State(): Sys
      reads `calls, `next, `log, service.replay
    {
      Sys(service.replay.rows, calls, next, log)
    }

    ghost predicate Valid()
      reads this, service.replay
    {
      State() == Exec(INIT, history)
    }

    constructor ()
      ensures Valid() && history == [] && fresh(service.replay)
    {
      var replay := new SqliteReplayStore();
      var signer := new SignerService(replay);
      service := signer;
      calls, next := map[], 0;
      log, history := [], [];
    }

    /** A new call, unless the request was answered or refused at once. */
    method Open(call: Option<Call>)
      modifies `calls, `next
      ensures if call.Some? then calls == old(calls)[old(next) := call.value] && next == old(next) + 1
              else calls == old(calls) && next == old(next)
    {
      if call.Some? {
        calls, next := calls[next := call.value], next + 1;
      }
    }

    method StartSign(request: Request, policyOk: bool, expiresAt: Option<int>)
      modifies `calls, `next, `log, service.replay
      ensures State() == Apply(old(State()), Signer.StartSign(request, policyOk, expiresAt))
    {
      var prior, call := service.Sign(request, policyOk, expiresAt);
      Open(call);
      log := log + if prior.Some? then [Success(request.id, prior.value)] else [];
    }

    method StartEnvelope(request: Request)
      modifies `calls, `next
      ensures State() == Apply(old(State()), Signer.StartEnvelope(request))
    {
      if request.id == "" {
        return;
      }
      var found := service.LookUpStored(request.id, request.hash);
      if !found.Refuse? {
        Open(Some(Verifying(request, if found.Prior? then Some(found.found) else None)));
      }
    }

    method VerifyAnswered(c: CallId, verified: bool, policyOk: bool, expiresAt: Option<int>)
      requires c in calls && calls[c].Verifying?
      modifies `calls, `next, `log, service.replay
      ensures State() == Apply(old(State()), Signer.VerifyAnswered(c, verified, policyOk, expiresAt))
    {
      var call := calls[c];
      var answer, goesOn := service.EnvelopeVerified(call.request, call.prior, verified, policyOk, expiresAt);
      calls := calls - {c};
      Open(goesOn);
      log := log + if answer.Some? then [Success(call.request.id, answer.value)] else [];
    }

    method FenceAnswered(c: CallId, height: Option<int>)
      requires c in calls && calls[c].AwaitingFence?
      modifies `calls, service.replay
      ensures State() == Apply(old(State()), Signer.FenceAnswered(c, height))
    {
      var request := calls[c].request;
      var passed := service.FenceBlockhash(request, height);
      calls := if passed then calls[c := AboutToSign(request)] else calls - {c};
    }

    method SignNow(c: CallId, outcome: SignOutcome)
      requires c in calls && calls[c].AboutToSign?
      modifies `calls, `log, service.replay
      ensures State() == Apply(old(State()), Signer.SignNow(c, outcome))
    {
      ghost var made;
      var answer;
      answer, made := service.SignClaimed(calls[c].request, outcome);
      calls := calls - {c};
      log := log + made;
    }

    method LookUp(id: string, hash: string, recoverRaw: bool)
      modifies `log, service.replay
      ensures State() == Apply(old(State()), Signer.LookUp(id, hash, recoverRaw))
    {
      ghost var after := DoLookUp(Idle(service.replay.rows), id, hash, recoverRaw);
      var signature, transaction := service.Result(id, hash, recoverRaw);
      log := log + after.log;
    }

    method BroadcastAnswered(c: CallId, returned: Option<string>)
      requires c in calls && calls[c].AwaitingRpc?
      modifies `calls, service.replay
      ensures State() == Apply(old(State()), Signer.BroadcastAnswered(c, returned))
    {
      var call := calls[c];
      var ok := service.BroadcastSigned(call.id, call.transaction, call.expected, call.lastValidBlockHeight, returned);
      calls := calls - {c};
    }

    method StartBroadcast(id: string, transaction: string, expected: string)
      modifies `calls, `next
      ensures State() == Apply(old(State()), Signer.StartBroadcast(id, transaction, expected))
    {
      var rows := service.replay.rows;
      var height := if id in rows && rows[id].data.Some? then rows[id].data.value.lastValidBlockHeight else None;
      Open(Some(AwaitingRpc(id, transaction, expected, height)));
    }

    /** The reconciliation comes to a listed row and asks for the status of its signature. */
    method ReconcileRow(id: string)
      modifies `calls, `next
      ensures State() == Apply(old(State()), Signer.ReconcileRow(id))
    {
      var rows := service.replay.rows;
      if id in rows && Listed(rows[id]) && Asked(rows[id]).Some? {
        Open(Some(AwaitingStatus(id, rows[id].state, rows[id].data.value, Asked(rows[id]).value)));
      }
    }

    method StatusAnswered(c: CallId, status: TransactionStatus)
      requires c in calls && calls[c].AwaitingStatus?
      modifies `calls, service.replay
      ensures State() == Apply(old(State()), Signer.StatusAnswered(c, status))
    {
      var call := calls[c];
      var askHeight := service.StatusAnswered(call.id, call.state, call.data, call.signature, status);
      calls := if askHeight then calls[c := AwaitingHeight(call.id, call.state, call.data, call.signature)] else calls - {c};
    }

    method HeightAnswered(c: CallId, height: Option<int>)
      requires c in calls && calls[c].AwaitingHeight?
      modifies `calls, service.replay
      ensures State() == Apply(old(State()), Signer.HeightAnswered(c, height))
    {
      var call := calls[c];
      service.HeightAnswered(call.id, call.state, call.data, call.signature, height);
      calls := calls - {c};
    }

    /** An await that rejects ends its call; a restart forgets them all. */
    method Rejects(c: CallId)
      modifies `calls
      ensures calls == old(calls) - {c}
    {
      calls := calls - {c};
    }

    method Do(step: Step)
      modifies `calls, `next, `log, service.replay
      ensures State() == Apply(old(State()), step)
    {
      match step
      case StartSign(request, policyOk, expiresAt) => StartSign(request, policyOk, expiresAt);
      case StartEnvelope(request) => StartEnvelope(request);
      case VerifyAnswered(c, v, p, e) => if c in calls && calls[c].Verifying? { VerifyAnswered(c, v, p, e); }
      case FenceAnswered(c, h) => if c in calls && calls[c].AwaitingFence? { FenceAnswered(c, h); }
      case FenceRejected(c) => if c in calls && calls[c].AwaitingFence? { Rejects(c); }
      case SignNow(c, o) => if c in calls && calls[c].AboutToSign? { SignNow(c, o); }
      case LookUp(id, hash, raw) => LookUp(id, hash, raw);
      case StartBroadcast(id, tx, expected) => StartBroadcast(id, tx, expected);
      case BroadcastAnswered(c, r) => if c in calls && calls[c].AwaitingRpc? { BroadcastAnswered(c, r); }
      case ReconcileRow(id) => ReconcileRow(id);
      case StatusAnswered(c, status) => if c in calls && calls[c].AwaitingStatus? { StatusAnswered(c, status); }
      case HeightAnswered(c, h) => if c in calls && calls[c].AwaitingHeight? { HeightAnswered(c, h); }
      case CallThrows(c) =>
        if c in calls && (calls[c].AwaitingRpc? || calls[c].AwaitingStatus? || calls[c].AwaitingHeight?) { Rejects(c); }
      case Restart => calls := map[];
    }

    /** Any sequence of requests, answers and restarts is a run of the step system. */
    method Drive(steps: seq<Step>)
      requires Valid()
      modifies this, service.replay
      ensures Valid() && history == old(history) + steps
    {
      for i := 0 to |steps|
        invariant Valid() && history == old(history) + steps[..i]
      {
        OneMore(INIT, history, steps[i]);
        Do(steps[i]);
        history := history + [steps[i]];
        assert steps[..i + 1] == steps[..i] + [steps[i]];
      }
      assert steps[..|steps|] == steps;
    }

    /** What the signer promises, about the objects: table, log and calls in flight agree at every point. */
    lemma Keeps()
      requires Valid()
      ensures Inv(State())
    {
      Reachable(history);
    }
  }
}
