/**
 * The isolated signer as a step system (src/signer/index.ts): `sign`, `signEnvelope`, `result`,
 * `broadcastSigned` and `reconcileTransactions` interleaving over one replay table, with restarts. What runs
 * between two `await`s is one step; the verifier, the policy, the account and the RPC give arbitrary answers.
 */
module Signer {
  import opened Options
  import opened Basics
  import opened Replay

  datatype SignResult = SignResult(transaction: string, signature: string)

  datatype Lookup = NothingStored | Prior(found: SignResult) | Refuse(error: string)

  /** The durable lookup every path makes first. */
  function Stored(t: Table, id: string, requestHash: string): Lookup {
    if requestHash == "" then Refuse("request_hash_invalid")
    else if id !in t then NothingStored
    else if t[id].state == Expired then Refuse("authorization_expired")
    else if t[id].data.None? then NothingStored
    else
      var data := t[id].data.value;
      if data.requestHash.None? || Lower(data.requestHash.value) != Lower(requestHash)
      then Refuse("authorization_request_mismatch")
      else if t[id].state != Signed || data.transaction.None? || data.transaction.value == ""
      then Refuse("authorization_in_progress")
      else Prior(SignResult(data.transaction.value, if data.signature.Some? then data.signature.value else ""))
  }

  /** One request: its authorization id, the hash of the decoded message, and the block-height fence. */
  datatype Request = Request(id: string, hash: string, lastValidBlockHeight: Option<int>)

  /** The awaits a call is suspended on. */
  datatype Call =
    | Verifying(request: Request, prior: Option<SignResult>)
    | AwaitingFence(request: Request)
    | AboutToSign(request: Request)
    | AwaitingRpc(id: string, transaction: string, expected: string, lastValidBlockHeight: Option<int>)
    | AwaitingStatus(id: string, state: State, data: Payload, signature: string)
    | AwaitingHeight(id: string, state: State, data: Payload, signature: string)

  /** Every call of `signMessage` is an attempt; `made` is what came of it, None where signing or attaching threw. */
  datatype Event =
    | SignAttempted(id: string, made: Option<SignResult>)
    | Success(id: string, result: SignResult)
    | RawReleased(id: string, result: SignResult)

  type CallId = nat

  datatype Sys = Sys(table: Table, calls: map<CallId, Call>, next: CallId, log: seq<Event>)

  const INIT := Sys(map[], map[], 0, [])

  datatype SignOutcome = SignThrows | AttachThrows | Attached(result: SignResult)
  datatype TransactionStatus = Unknown | StatusError | Settled | Processing

  datatype Step =
    | StartSign(request: Request, policyOk: bool, expiresAt: Option<int>)
    | StartEnvelope(request: Request)
    | VerifyAnswered(call: CallId, verified: bool, policyOk: bool, expiresAt: Option<int>)
    | FenceAnswered(call: CallId, height: Option<int>)
    | FenceRejected(call: CallId)
    | SignNow(call: CallId, outcome: SignOutcome)
    | LookUp(id: string, hash: string, recoverRaw: bool)
    | StartBroadcast(id: string, transaction: string, expected: string)
    | BroadcastAnswered(call: CallId, returned: Option<string>)
    | ReconcileRow(id: string)
    | StatusAnswered(call: CallId, status: TransactionStatus)
    | HeightAnswered(call: CallId, height: Option<int>)
    | CallThrows(call: CallId)
    | Restart

  function Open(s: Sys, call: Call): Sys {
    s.(calls := s.calls[s.next := call], next := s.next + 1)
  }

  function Close(s: Sys, c: CallId): Sys {
    s.(calls := s.calls - {c})
  }

  function Replace(s: Sys, c: CallId, call: Call): Sys {
    s.(calls := s.calls[c := call])
  }

  function Log(s: Sys, e: Event): Sys {
    s.(log := s.log + [e])
  }

  /** Burn the one-time authorization; only the claimer goes on, to the blockhash fence. */
  function ClaimThenFence(s: Sys, request: Request, expiresAt: Option<int>): Sys {
    if MayConsume(s.table, request.id, expiresAt)
    then Open(s.(table := Consume(s.table, request.id, expiresAt)), AwaitingFence(request))
    else s
  }

  /** The low-level path: policy first, then the durable lookup, then the claim. */
  function DoStartSign(s: Sys, request: Request, policyOk: bool, expiresAt: Option<int>): Sys {
    if !policyOk then s
    else
      match Stored(s.table, request.id, request.hash)
      case Refuse(_) => s
      case Prior(found) => Log(s, Success(request.id, found))
      case NothingStored => ClaimThenFence(s, request, expiresAt)
  }

  /** The daemon path up to the envelope verification. */
  function DoStartEnvelope(s: Sys, request: Request): Sys {
    if request.id == "" then s
    else
      match Stored(s.table, request.id, request.hash)
      case Refuse(_) => s
      case Prior(found) => Open(s, Verifying(request, Some(found)))
      case NothingStored => Open(s, Verifying(request, None))
  }

  function DoVerifyAnswered(s: Sys, c: CallId, verified: bool, policyOk: bool, expiresAt: Option<int>): Sys
    requires c in s.calls && s.calls[c].Verifying?
  {
    var call := s.calls[c];
    var t := Close(s, c);
    if !verified || !policyOk then t
    else if call.prior.Some? then Log(t, Success(call.request.id, call.prior.value))
    else ClaimThenFence(t, call.request, expiresAt)
  }

  /** `height` is None where no fence applies or the signer has no block-height source. */
  function DoFenceAnswered(s: Sys, c: CallId, height: Option<int>): Sys
    requires c in s.calls && s.calls[c].AwaitingFence?
  {
    var request := s.calls[c].request;
    if request.lastValidBlockHeight.None? || height.None? then Replace(s, c, AboutToSign(request))
    else if height.value < 0 then Close(s, c)
    else if height.value <= request.lastValidBlockHeight.value then Replace(s, c, AboutToSign(request))
    else
      Close(s.(table := Transition(s.table, request.id, Claimed, Expired,
                          Some(Payload(None, None, None, None, request.lastValidBlockHeight)))), c)
  }

  function FailClaim(s: Sys, c: CallId, id: string): Sys {
    Close(s.(table := Transition(s.table, id, Claimed, Failed, None)), c)
  }

  /** Sign, record with a compare-and-set, and only then answer. */
  function DoSignNow(s: Sys, c: CallId, outcome: SignOutcome): Sys
    requires c in s.calls && s.calls[c].AboutToSign?
  {
    var request := s.calls[c].request;
    match outcome
    case SignThrows => FailClaim(Log(s, SignAttempted(request.id, None)), c, request.id)
    case AttachThrows => FailClaim(Log(s, SignAttempted(request.id, None)), c, request.id)
    case Attached(result) =>
      var signed := Log(s, SignAttempted(request.id, Some(result)));
      var data := Payload(Some(request.hash), Some(result.transaction), Some(result.signature), None,
                          request.lastValidBlockHeight);
      if MayTransition(s.table, request.id, Claimed)
      then Log(Close(signed.(table := Transition(s.table, request.id, Claimed, Signed, Some(data))), c),
               Success(request.id, result))
      else FailClaim(signed, c, request.id)
  }

  /** Result lookup: the signature to any caller, the raw bytes to the first that asks for them. */
  function DoLookUp(s: Sys, id: string, hash: string, recoverRaw: bool): Sys {
    if id in s.table && s.table[id].state == Expired then s
    else
      match Stored(s.table, id, hash)
      case Refuse(_) => s
      case NothingStored => s
      case Prior(found) =>
        if !recoverRaw || !MayRecover(s.table, id) then Log(s, Success(id, found))
        else
          Log(Log(s.(table := RecoverSigned(s.table, id)), Success(id, found)), RawReleased(id, found))
  }

  function DoStartBroadcast(s: Sys, id: string, transaction: string, expected: string): Sys {
    var height := if id in s.table && s.table[id].data.Some?
                  then s.table[id].data.value.lastValidBlockHeight else None;
    Open(s, AwaitingRpc(id, transaction, expected, height))
  }

  /** An RPC that answers another signature leaves the broadcast unresolved. */
  function DoBroadcastAnswered(s: Sys, c: CallId, returned: Option<string>): Sys
    requires c in s.calls && s.calls[c].AwaitingRpc?
  {
    var call := s.calls[c];
    if returned != Some(call.expected) then
      Close(s.(table := Transition(s.table, call.id, Signed, Reconciliation,
                          Some(Payload(None, None, None, Some(call.expected), call.lastValidBlockHeight)))), c)
    else
      Close(s.(table := Transition(s.table, call.id, Signed, Broadcast,
                          Some(Payload(None, Some(call.transaction), returned, None, call.lastValidBlockHeight)))), c)
  }

  /** A listed row with a signature to ask about. */
  function DoReconcileRow(s: Sys, id: string): Sys {
    if id !in s.table || (s.table[id].state != Broadcast && s.table[id].state != Reconciliation) then s
    else if s.table[id].data.None? then s
    else
      var data := s.table[id].data.value;
      var signature := if data.signature.Some? then data.signature else data.expected;
      if signature.None? || signature.value == "" then s
      else Open(s, AwaitingStatus(id, s.table[id].state, data, signature.value))
  }

  function SettledAs(state: State, status: TransactionStatus): Option<State> {
    match status
    case Unknown => None
    case StatusError => Some(Reverted)
    case Settled => Some(Confirmed)
    case Processing => if state == Reconciliation then Some(Broadcast) else None
  }

  function DoStatusAnswered(s: Sys, c: CallId, status: TransactionStatus): Sys
    requires c in s.calls && s.calls[c].AwaitingStatus?
  {
    var call := s.calls[c];
    if status.Unknown? then
      if call.data.lastValidBlockHeight.None? then Close(s, c)
      else Replace(s, c, AwaitingHeight(call.id, call.state, call.data, call.signature))
    else
      var settled := SettledAs(call.state, status);
      if settled.None? then Close(s, c)
      else
        Close(s.(table := Transition(s.table, call.id, call.state, settled.value,
                            Some(Payload(None, call.data.transaction, Some(call.signature), None,
                                         call.data.lastValidBlockHeight)))), c)
  }

  function DoHeightAnswered(s: Sys, c: CallId, height: Option<int>): Sys
    requires c in s.calls && s.calls[c].AwaitingHeight?
  {
    var call := s.calls[c];
    if height.Some? && call.data.lastValidBlockHeight.Some? && height.value > call.data.lastValidBlockHeight.value then
      Close(s.(table := Transition(s.table, call.id, call.state, Dropped,
                          Some(Payload(None, None, Some(call.signature), None, call.data.lastValidBlockHeight)))), c)
    else Close(s, c)
  }

  function Apply(s: Sys, step: Step): Sys {
    match step
    case StartSign(request, policyOk, expiresAt) => DoStartSign(s, request, policyOk, expiresAt)
    case StartEnvelope(request) => DoStartEnvelope(s, request)
    case VerifyAnswered(c, v, p, e) => if c in s.calls && s.calls[c].Verifying? then DoVerifyAnswered(s, c, v, p, e) else s
    case FenceAnswered(c, h) => if c in s.calls && s.calls[c].AwaitingFence? then DoFenceAnswered(s, c, h) else s
    case FenceRejected(c) => if c in s.calls && s.calls[c].AwaitingFence? then Close(s, c) else s
    case SignNow(c, o) => if c in s.calls && s.calls[c].AboutToSign? then DoSignNow(s, c, o) else s
    case LookUp(id, hash, raw) => DoLookUp(s, id, hash, raw)
    case StartBroadcast(id, tx, expected) => DoStartBroadcast(s, id, tx, expected)
    case BroadcastAnswered(c, r) => if c in s.calls && s.calls[c].AwaitingRpc? then DoBroadcastAnswered(s, c, r) else s
    case ReconcileRow(id) => DoReconcileRow(s, id)
    case StatusAnswered(c, st) => if c in s.calls && s.calls[c].AwaitingStatus? then DoStatusAnswered(s, c, st) else s
    case HeightAnswered(c, h) => if c in s.calls && s.calls[c].AwaitingHeight? then DoHeightAnswered(s, c, h) else s
    case CallThrows(c) =>
      if c in s.calls && (s.calls[c].AwaitingRpc? || s.calls[c].AwaitingStatus? || s.calls[c].AwaitingHeight?)
      then Close(s, c) else s
    case Restart => s.(calls := map[])
  }

  function Exec(s: Sys, steps: seq<Step>): Sys
    decreases |steps|
  {
    if steps == [] then s else Exec(Apply(s, steps[0]), steps[1..])
  }

  /** A run with one more step is the run and then the step. */
  lemma {:induction false} OneMore(s: Sys, history: seq<Step>, step: Step)
    ensures Exec(s, history + [step]) == Apply(Exec(s, history), step)
    decreases |history|
  {
    if history == [] {
      assert ([] + [step])[1..] == [] && [] + [step] == [step];
      assert [step][1..] == [];
    } else {
      assert (history + [step])[1..] == history[1..] + [step];
      OneMore(Apply(s, history[0]), history[1..], step);
    }
  }
}
