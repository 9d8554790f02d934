/**
 * One-time authorization: what every interleaving of signing, result lookup, broadcast and reconciliation
 * keeps, across any number of signer restarts.
 */
module SignerInvariants {
  import opened Options
  import opened Replay
  import opened Signer

  // ---- the invariant -----------------------------------------------------------------------------

  predicate NeverSigned(log: seq<Event>, id: string) {
    forall i | 0 <= i < |log| && log[i].SignAttempted? :: log[i].id != id
  }

  predicate NeverReleased(log: seq<Event>, id: string) {
    forall i | 0 <= i < |log| && log[i].RawReleased? :: log[i].id != id
  }

  predicate SignedOnce(log: seq<Event>) {
    forall i, j | 0 <= i < j < |log| && log[i].SignAttempted? && log[j].SignAttempted? :: log[i].id != log[j].id
  }

  predicate ReleasedOnce(log: seq<Event>) {
    forall i, j | 0 <= i < j < |log| && log[i].RawReleased? && log[j].RawReleased? :: log[i].id != log[j].id
  }

  predicate Made(log: seq<Event>, id: string, result: SignResult) {
    SignAttempted(id, Some(result)) in log
  }

  predicate SuccessesMade(log: seq<Event>) {
    forall i | 0 <= i < |log| && !log[i].SignAttempted? :: Made(log, log[i].id, log[i].result)
  }

  /** States only a stored signature leads to. */
  predicate AfterSignature(state: State) {
    state == Signed || state == Reconciliation || state == Broadcast
    || state == Confirmed || state == Reverted || state == Dropped
  }

  predicate HasSigned(log: seq<Event>, id: string) {
    exists i | 0 <= i < |log| :: log[i].SignAttempted? && log[i].id == id && log[i].made.Some?
  }

  /** The signed payload of a row is what its one signing made. */
  predicate PayloadMade(log: seq<Event>, id: string, row: Row) {
    row.state == Signed ==>
      && row.data.Some? && row.data.value.transaction.Some? && row.data.value.signature.Some?
      && Made(log, id, SignResult(row.data.value.transaction.value, row.data.value.signature.value))
  }

  function StateRank(state: State): nat {
    match state
    case Claimed => 0
    case Signed => 1
    case Reconciliation => 2
    case Broadcast => 3
    case _ => 4
  }

  /** Strictly climbed by every change of a row. */
  function Rank(row: Row): nat {
    2 * StateRank(row.state) + if row.recovered then 1 else 0
  }

  predicate RowOk(log: seq<Event>, id: string, row: Row) {
    && (row.state == Claimed || row.state == Expired ==> NeverSigned(log, id))
    && (AfterSignature(row.state) ==> HasSigned(log, id))
    && PayloadMade(log, id, row)
    && (!row.recovered ==> NeverReleased(log, id))
    && 1 <= row.version <= 1 + Rank(row)
    && (row.data.Some? && row.data.value.requestHash.Some? ==> row.state == Signed)
  }

  /** A call past the claim: the one owner of its claimed row. */
  predicate OwnsClaim(call: Call) {
    call.AwaitingFence? || call.AboutToSign?
  }

  predicate CallOk(s: Sys, call: Call) {
    match call
    case Verifying(request, prior) => prior.Some? ==> Made(s.log, request.id, prior.value)
    case AwaitingFence(request) => MayTransition(s.table, request.id, Claimed)
    case AboutToSign(request) => MayTransition(s.table, request.id, Claimed)
    case AwaitingRpc(_, _, _, _) => true
    case AwaitingStatus(_, state, _, _) => state == Broadcast || state == Reconciliation
    case AwaitingHeight(_, state, _, _) => state == Broadcast || state == Reconciliation
  }

  predicate RowsOk(log: seq<Event>, table: Table) {
    forall id | id in table :: RowOk(log, id, table[id])
  }

  predicate CallsOk(s: Sys) {
    forall c | c in s.calls :: c < s.next && CallOk(s, s.calls[c])
  }

  predicate Inv(s: Sys) {
    && SignedOnce(s.log) && ReleasedOnce(s.log) && SuccessesMade(s.log)
    && RowsOk(s.log, s.table)
    && (forall i | 0 <= i < |s.log| :: s.log[i].id in s.table)
    && CallsOk(s)
    && (forall c, d | c in s.calls && d in s.calls && c != d && OwnsClaim(s.calls[c]) && OwnsClaim(s.calls[d]) ::
          s.calls[c].request.id != s.calls[d].request.id)
  }

  predicate Terminal(state: State) {
    StateRank(state) == 4
  }

  /** Rows are never deleted, a changed row has climbed, and a terminal row never changes. */
  predicate Climbs(a: Table, b: Table) {
    forall id | id in a ::
      id in b && (b[id] == a[id] || (Rank(a[id]) < Rank(b[id]) && !Terminal(a[id].state)))
  }

  // ---- moves on the parts ------------------------------------------------------------------------

  /** Closing a call, or letting it take a later await, keeps the invariant. */
  lemma CloseKeeps(s: Sys, c: CallId)
    requires Inv(s)
    ensures Inv(Close(s, c))
  {
  }

  lemma OpenKeeps(s: Sys, call: Call)
    requires Inv(s) && CallOk(s, call) && !OwnsClaim(call)
    ensures Inv(Open(s, call))
  {
  }

  /** Logging a success that was made. */
  lemma SuccessKeeps(s: Sys, id: string, result: SignResult)
    requires Inv(s) && id in s.table && Made(s.log, id, result)
    ensures Inv(Log(s, Success(id, result)))
  {
    LogFrames(s.log, Success(id, result));
    var t := Log(s, Success(id, result));
    forall j | j in t.table ensures RowOk(t.log, j, t.table[j]) {
      assert RowOk(s.log, j, s.table[j]);
      RowFrames(s.log, Success(id, result), j, s.table[j]);
    }
    forall c | c in t.calls ensures CallOk(t, t.calls[c]) {
      assert CallOk(s, s.calls[c]);
    }
  }

  lemma LogFrames(log: seq<Event>, e: Event)
    requires SignedOnce(log) && ReleasedOnce(log) && SuccessesMade(log)
    requires !e.SignAttempted? ==> Made(log, e.id, e.result)
    requires e.SignAttempted? ==> NeverSigned(log, e.id)
    requires e.RawReleased? ==> NeverReleased(log, e.id)
    ensures SignedOnce(log + [e]) && ReleasedOnce(log + [e]) && SuccessesMade(log + [e])
    ensures forall id, result :: Made(log, id, result) ==> Made(log + [e], id, result)
  {
    var after := log + [e];
    forall id, result | Made(log, id, result) ensures Made(after, id, result) {
    }
  }

  /** An event about another id, or one that signs and releases nothing, says nothing new about a row. */
  lemma RowFrames(log: seq<Event>, e: Event, id: string, row: Row)
    requires RowOk(log, id, row)
    requires e.id != id || e.Success?
    ensures RowOk(log + [e], id, row)
  {
    var after := log + [e];
    if HasSigned(log, id) {
      var i :| 0 <= i < |log| && log[i].SignAttempted? && log[i].id == id && log[i].made.Some?;
      assert after[i] == log[i];
    }
    if row.state == Signed {
      assert Made(after, id, SignResult(row.data.value.transaction.value, row.data.value.signature.value));
    }
  }

  lemma PriorIsMade(s: Sys, id: string, hash: string)
    requires Inv(s)
    ensures var found := Stored(s.table, id, hash);
      found.Prior? ==> id in s.table && s.table[id].state == Signed && Made(s.log, id, found.found)
  {
    if Stored(s.table, id, hash).Prior? {
      assert RowOk(s.log, id, s.table[id]);
    }
  }

  lemma ClaimKeeps(s: Sys, request: Request, expiresAt: Option<int>)
    requires Inv(s)
    ensures Inv(ClaimThenFence(s, request, expiresAt))
    ensures Climbs(s.table, ClaimThenFence(s, request, expiresAt).table)
  {
    if MayConsume(s.table, request.id, expiresAt) {
      var t := ClaimThenFence(s, request, expiresAt);
      forall j | j in t.table ensures RowOk(t.log, j, t.table[j]) {
        if j != request.id {
          assert RowOk(s.log, j, s.table[j]);
        }
      }
      forall c | c in t.calls ensures CallOk(t, t.calls[c]) {
        if c != s.next {
          assert CallOk(s, s.calls[c]);
        }
      }
    }
  }

  /** A compare-and-set that leaves a row no call owns, from a state past the signature. */
  lemma SettleKeeps(s: Sys, id: string, from: State, to: State, data: Payload)
    requires Inv(s) && AfterSignature(from) && AfterSignature(to) && StateRank(from) < StateRank(to)
    requires data.requestHash.None?
    ensures Inv(s.(table := Transition(s.table, id, from, to, Some(data))))
    ensures Climbs(s.table, Transition(s.table, id, from, to, Some(data)))
  {
    if MayTransition(s.table, id, from) {
      var t := s.(table := Transition(s.table, id, from, to, Some(data)));
      forall j | j in t.table ensures RowOk(t.log, j, t.table[j]) {
        assert RowOk(s.log, j, s.table[j]);
      }
      forall c | c in t.calls ensures CallOk(t, t.calls[c]) {
        assert CallOk(s, s.calls[c]);
      }
    }
  }

  lemma EndClaimRows(log: seq<Event>, t: Table, id: string, to: State, data: Option<Payload>)
    requires RowsOk(log, t) && MayTransition(t, id, Claimed) && (to == Expired || to == Failed)
    requires data.Some? ==> data.value.requestHash.None?
    ensures RowsOk(log, Transition(t, id, Claimed, to, data)) && Climbs(t, Transition(t, id, Claimed, to, data))
  {
    forall j | j in Transition(t, id, Claimed, to, data) ensures RowOk(log, j, Transition(t, id, Claimed, to, data)[j]) {
      assert RowOk(log, j, t[j]);
    }
  }

  /** Once its owner's call is gone, no other call waits on a claimed row that moves. */
  lemma EndClaimCalls(s: Sys, c: CallId, t: Sys)
    requires Inv(s) && c in s.calls && OwnsClaim(s.calls[c])
    requires t.calls == s.calls - {c} && t.next == s.next && (forall id, r :: Made(s.log, id, r) ==> Made(t.log, id, r))
    requires forall id | id in s.table && id != s.calls[c].request.id :: id in t.table && t.table[id] == s.table[id]
    ensures CallsOk(t)
  {
    forall d | d in t.calls ensures CallOk(t, t.calls[d]) {
      assert CallOk(s, s.calls[d]);
    }
  }

  /** The owner of a claim ends it unsigned, as `expired`, or as `failed` whatever it did. */
  lemma EndClaimKeeps(s: Sys, c: CallId, to: State, data: Option<Payload>)
    requires Inv(s) && c in s.calls && OwnsClaim(s.calls[c])
    requires to == Expired || to == Failed
    requires data.Some? ==> data.value.requestHash.None?
    ensures var id := s.calls[c].request.id;
      && Inv(Close(s.(table := Transition(s.table, id, Claimed, to, data)), c))
      && Climbs(s.table, Transition(s.table, id, Claimed, to, data))
  {
    var id := s.calls[c].request.id;
    assert CallOk(s, s.calls[c]);
    EndClaimRows(s.log, s.table, id, to, data);
    EndClaimCalls(s, c, Close(s.(table := Transition(s.table, id, Claimed, to, data)), c));
  }

  // ---- one step ----------------------------------------------------------------------------------

  /** The rows after an attempt that came to nothing: the claim failed. */
  lemma FailedRows(log: seq<Event>, t: Table, id: string)
    requires RowsOk(log, t) && MayTransition(t, id, Claimed)
    ensures RowsOk(log + [SignAttempted(id, None)], Transition(t, id, Claimed, Failed, None))
    ensures Climbs(t, Transition(t, id, Claimed, Failed, None))
  {
    var after := Transition(t, id, Claimed, Failed, None);
    forall j | j in after ensures RowOk(log + [SignAttempted(id, None)], j, after[j]) {
      assert RowOk(log, j, t[j]);
      if j != id {
        RowFrames(log, SignAttempted(id, None), j, t[j]);
      }
    }
  }

  /** The rows after a recorded signature. */
  lemma SignedRows(log: seq<Event>, t: Table, id: string, result: SignResult, data: Payload)
    requires RowsOk(log, t) && MayTransition(t, id, Claimed)
    requires data.transaction == Some(result.transaction) && data.signature == Some(result.signature)
    ensures var more := log + [SignAttempted(id, Some(result))] + [Success(id, result)];
      RowsOk(more, Transition(t, id, Claimed, Signed, Some(data))) && Climbs(t, Transition(t, id, Claimed, Signed, Some(data)))
  {
    var e := SignAttempted(id, Some(result));
    var more, after := log + [e] + [Success(id, result)], Transition(t, id, Claimed, Signed, Some(data));
    assert more[|log|] == e;
    forall j | j in after ensures RowOk(more, j, after[j]) {
      assert RowOk(log, j, t[j]);
      if j != id {
        RowFrames(log, e, j, t[j]);
        RowFrames(log + [e], Success(id, result), j, t[j]);
      }
    }
  }

  lemma AttemptFailsKeeps(s: Sys, c: CallId, outcome: SignOutcome)
    requires Inv(s) && c in s.calls && s.calls[c].AboutToSign? && !outcome.Attached?
    ensures Inv(DoSignNow(s, c, outcome)) && Climbs(s.table, DoSignNow(s, c, outcome).table)
  {
    var id := s.calls[c].request.id;
    assert CallOk(s, s.calls[c]) && RowOk(s.log, id, s.table[id]);
    LogFrames(s.log, SignAttempted(id, None));
    FailedRows(s.log, s.table, id);
    EndClaimCalls(s, c, DoSignNow(s, c, outcome));
  }

  lemma SignedLog(log: seq<Event>, id: string, result: SignResult)
    requires SignedOnce(log) && ReleasedOnce(log) && SuccessesMade(log) && NeverSigned(log, id)
    ensures var more := log + [SignAttempted(id, Some(result))] + [Success(id, result)];
      && SignedOnce(more) && ReleasedOnce(more) && SuccessesMade(more)
      && forall i, r :: Made(log, i, r) ==> Made(more, i, r)
  {
    LogFrames(log, SignAttempted(id, Some(result)));
    var signed := log + [SignAttempted(id, Some(result))];
    assert signed[|log|] == SignAttempted(id, Some(result));
    LogFrames(signed, Success(id, result));
  }

  lemma AttachedParts(s: Sys, c: CallId, result: SignResult)
    requires Inv(s) && c in s.calls && s.calls[c].AboutToSign?
    requires MayTransition(s.table, s.calls[c].request.id, Claimed)
    requires forall i, r :: Made(s.log, i, r) ==> Made(DoSignNow(s, c, Attached(result)).log, i, r)
    ensures var t := DoSignNow(s, c, Attached(result)); RowsOk(t.log, t.table) && CallsOk(t) && Climbs(s.table, t.table)
  {
    var request := s.calls[c].request;
    SignedRows(s.log, s.table, request.id, result,
               Payload(Some(request.hash), Some(result.transaction), Some(result.signature), None, request.lastValidBlockHeight));
    EndClaimCalls(s, c, DoSignNow(s, c, Attached(result)));
  }

  lemma AttachedKeeps(s: Sys, c: CallId, result: SignResult)
    requires Inv(s) && c in s.calls && s.calls[c].AboutToSign?
    ensures Inv(DoSignNow(s, c, Attached(result))) && Climbs(s.table, DoSignNow(s, c, Attached(result)).table)
  {
    var id := s.calls[c].request.id;
    assert CallOk(s, s.calls[c]) && RowOk(s.log, id, s.table[id]);
    SignedLog(s.log, id, result);
    AttachedParts(s, c, result);
  }

  /** Signing consumes the owned claim and nothing else: failed if the bytes could not be attached. */
  lemma SignKeeps(s: Sys, c: CallId, outcome: SignOutcome)
    requires Inv(s) && c in s.calls && s.calls[c].AboutToSign?
    ensures Inv(DoSignNow(s, c, outcome)) && Climbs(s.table, DoSignNow(s, c, outcome).table)
  {
    match outcome
    case SignThrows => AttemptFailsKeeps(s, c, outcome);
    case AttachThrows => AttemptFailsKeeps(s, c, outcome);
    case Attached(result) => AttachedKeeps(s, c, result);
  }

  lemma StartSignKeeps(s: Sys, request: Request, policyOk: bool, expiresAt: Option<int>)
    requires Inv(s)
    ensures Inv(DoStartSign(s, request, policyOk, expiresAt))
    ensures Climbs(s.table, DoStartSign(s, request, policyOk, expiresAt).table)
  {
    PriorIsMade(s, request.id, request.hash);
    ClaimKeeps(s, request, expiresAt);
    match Stored(s.table, request.id, request.hash)
    case Prior(found) => SuccessKeeps(s, request.id, found);
    case _ =>
  }

  lemma VerifyKeeps(s: Sys, c: CallId, v: bool, p: bool, e: Option<int>)
    requires Inv(s) && c in s.calls && s.calls[c].Verifying?
    ensures Inv(DoVerifyAnswered(s, c, v, p, e)) && Climbs(s.table, DoVerifyAnswered(s, c, v, p, e).table)
  {
    var call := s.calls[c];
    assert CallOk(s, call);
    CloseKeeps(s, c);
    ClaimKeeps(Close(s, c), call.request, e);
    if call.prior.Some? {
      assert SignAttempted(call.request.id, Some(call.prior.value)) in s.log;
      SuccessKeeps(Close(s, c), call.request.id, call.prior.value);
    }
  }

  lemma FencePassed(s: Sys, c: CallId)
    requires Inv(s) && c in s.calls && s.calls[c].AwaitingFence?
    ensures Inv(Replace(s, c, AboutToSign(s.calls[c].request)))
  {
    assert CallOk(s, s.calls[c]);
    ReplaceKeeps(s, c, AboutToSign(s.calls[c].request));
  }

  lemma FenceKeeps(s: Sys, c: CallId, h: Option<int>)
    requires Inv(s) && c in s.calls && s.calls[c].AwaitingFence?
    ensures Inv(DoFenceAnswered(s, c, h)) && Climbs(s.table, DoFenceAnswered(s, c, h).table)
  {
    var request := s.calls[c].request;
    if request.lastValidBlockHeight.None? || h.None? {
      FencePassed(s, c);
    } else if h.value < 0 {
      CloseKeeps(s, c);
    } else if h.value <= request.lastValidBlockHeight.value {
      FencePassed(s, c);
    } else {
      EndClaimKeeps(s, c, Expired, Some(Payload(None, None, None, None, request.lastValidBlockHeight)));
    }
  }

  lemma ReplaceKeeps(s: Sys, c: CallId, call: Call)
    requires Inv(s) && c in s.calls && CallOk(s, call)
    requires OwnsClaim(call) ==> OwnsClaim(s.calls[c]) && call.request == s.calls[c].request
    ensures Inv(Replace(s, c, call))
  {
    forall d | d in s.calls ensures CallOk(Replace(s, c, call), Replace(s, c, call).calls[d]) {
      assert CallOk(s, s.calls[d]);
    }
  }

  lemma LookUpKeeps(s: Sys, id: string, hash: string, raw: bool)
    requires Inv(s)
    ensures Inv(DoLookUp(s, id, hash, raw)) && Climbs(s.table, DoLookUp(s, id, hash, raw).table)
  {
    PriorIsMade(s, id, hash);
    match Stored(s.table, id, hash)
    case Prior(found) =>
      if raw && MayRecover(s.table, id) {
        SuccessKeeps(s, id, found);
        var u := Log(s, Success(id, found));
        assert Made(u.log, id, found);
        assert RowOk(u.log, id, u.table[id]);
        LogFrames(u.log, RawReleased(id, found));
        ReleaseRows(u, id, found);
      } else {
        SuccessKeeps(s, id, found);
      }
    case _ =>
  }

  lemma ReleaseRows(u: Sys, id: string, found: SignResult)
    requires Inv(u) && MayRecover(u.table, id) && Made(u.log, id, found)
    requires var log := u.log + [RawReleased(id, found)];
      && SignedOnce(log) && ReleasedOnce(log) && SuccessesMade(log)
      && forall j, r :: Made(u.log, j, r) ==> Made(log, j, r)
    ensures Inv(Log(u.(table := RecoverSigned(u.table, id)), RawReleased(id, found)))
    ensures Climbs(u.table, RecoverSigned(u.table, id))
  {
    var e := RawReleased(id, found);
    var t := Log(u.(table := RecoverSigned(u.table, id)), e);
    forall j | j in t.table ensures RowOk(t.log, j, t.table[j]) {
      assert RowOk(u.log, j, u.table[j]);
      if j != id {
        RowFrames(u.log, e, j, u.table[j]);
      } else {
        var i :| 0 <= i < |u.log| && u.log[i].SignAttempted? && u.log[i].id == id && u.log[i].made.Some?;
        assert t.log[i] == u.log[i];
      }
    }
    forall c | c in t.calls ensures CallOk(t, t.calls[c]) {
      assert CallOk(u, u.calls[c]);
    }
  }

  lemma BroadcastKeeps(s: Sys, c: CallId, returned: Option<string>)
    requires Inv(s) && c in s.calls && s.calls[c].AwaitingRpc?
    ensures Inv(DoBroadcastAnswered(s, c, returned)) && Climbs(s.table, DoBroadcastAnswered(s, c, returned).table)
  {
    var call := s.calls[c];
    CloseKeeps(s, c);
    SettleKeeps(Close(s, c), call.id, Signed, Reconciliation,
                Payload(None, None, None, Some(call.expected), call.lastValidBlockHeight));
    SettleKeeps(Close(s, c), call.id, Signed, Broadcast,
                Payload(None, Some(call.transaction), returned, None, call.lastValidBlockHeight));
  }

  lemma StatusKeeps(s: Sys, c: CallId, status: TransactionStatus)
    requires Inv(s) && c in s.calls && s.calls[c].AwaitingStatus?
    ensures Inv(DoStatusAnswered(s, c, status)) && Climbs(s.table, DoStatusAnswered(s, c, status).table)
  {
    var call := s.calls[c];
    assert CallOk(s, call);
    CloseKeeps(s, c);
    var settled := SettledAs(call.state, status);
    if settled.Some? {
      SettleKeeps(Close(s, c), call.id, call.state, settled.value,
                  Payload(None, call.data.transaction, Some(call.signature), None, call.data.lastValidBlockHeight));
    }
    ReplaceKeeps(s, c, AwaitingHeight(call.id, call.state, call.data, call.signature));
  }

  lemma HeightKeeps(s: Sys, c: CallId, height: Option<int>)
    requires Inv(s) && c in s.calls && s.calls[c].AwaitingHeight?
    ensures Inv(DoHeightAnswered(s, c, height)) && Climbs(s.table, DoHeightAnswered(s, c, height).table)
  {
    var call := s.calls[c];
    assert CallOk(s, call);
    CloseKeeps(s, c);
    SettleKeeps(Close(s, c), call.id, call.state, Dropped,
                Payload(None, None, Some(call.signature), None, call.data.lastValidBlockHeight));
  }

  /** The steps of `sign`, `signEnvelope` and `result`. */
  lemma SigningStepKeeps(s: Sys, step: Step)
    requires Inv(s)
    requires step.StartSign? || step.StartEnvelope? || step.VerifyAnswered? || step.FenceAnswered? || step.FenceRejected?
             || step.SignNow? || step.LookUp?
    ensures Inv(Apply(s, step)) && Climbs(s.table, Apply(s, step).table)
  {
    match step
    case StartSign(request, policyOk, expiresAt) => StartSignKeeps(s, request, policyOk, expiresAt);
    case StartEnvelope(request) =>
      PriorIsMade(s, request.id, request.hash);
      match Stored(s.table, request.id, request.hash) {
        case Prior(found) => OpenKeeps(s, Verifying(request, Some(found)));
        case _ => OpenKeeps(s, Verifying(request, None));
      }
    case VerifyAnswered(c, v, p, e) => if c in s.calls && s.calls[c].Verifying? { VerifyKeeps(s, c, v, p, e); }
    case FenceAnswered(c, h) => if c in s.calls && s.calls[c].AwaitingFence? { FenceKeeps(s, c, h); }
    case FenceRejected(c) => CloseKeeps(s, c);
    case SignNow(c, o) => if c in s.calls && s.calls[c].AboutToSign? { SignKeeps(s, c, o); }
    case LookUp(id, hash, raw) => LookUpKeeps(s, id, hash, raw);
  }

  /** The steps of broadcasting and reconciling, a throw, and a restart. */
  lemma SettlingStepKeeps(s: Sys, step: Step)
    requires Inv(s)
    requires step.StartBroadcast? || step.BroadcastAnswered? || step.ReconcileRow? || step.StatusAnswered?
             || step.HeightAnswered? || step.CallThrows? || step.Restart?
    ensures Inv(Apply(s, step)) && Climbs(s.table, Apply(s, step).table)
  {
    match step
    case StartBroadcast(id, tx, expected) =>
      var height := if id in s.table && s.table[id].data.Some?
                    then s.table[id].data.value.lastValidBlockHeight else None;
      OpenKeeps(s, AwaitingRpc(id, tx, expected, height));
    case BroadcastAnswered(c, r) => if c in s.calls && s.calls[c].AwaitingRpc? { BroadcastKeeps(s, c, r); }
    case ReconcileRow(id) =>
      if DoReconcileRow(s, id) != s {
        OpenKeeps(s, DoReconcileRow(s, id).calls[s.next]);
      }
    case StatusAnswered(c, st) => if c in s.calls && s.calls[c].AwaitingStatus? { StatusKeeps(s, c, st); }
    case HeightAnswered(c, h) => if c in s.calls && s.calls[c].AwaitingHeight? { HeightKeeps(s, c, h); }
    case CallThrows(c) => CloseKeeps(s, c);
    case Restart =>
  }

  lemma StepKeeps(s: Sys, step: Step)
    requires Inv(s)
    ensures Inv(Apply(s, step)) && Climbs(s.table, Apply(s, step).table)
  {
    if step.StartSign? || step.StartEnvelope? || step.VerifyAnswered? || step.FenceAnswered? || step.FenceRejected?
       || step.SignNow? || step.LookUp? {
      SigningStepKeeps(s, step);
    } else {
      SettlingStepKeeps(s, step);
    }
  }

  lemma {:induction false} RunKeeps(s: Sys, steps: seq<Step>)
    requires Inv(s)
    ensures Inv(Exec(s, steps))
    decreases |steps|
  {
    if steps != [] {
      StepKeeps(s, steps[0]);
      RunKeeps(Apply(s, steps[0]), steps[1..]);
    }
  }

  lemma Reachable(steps: seq<Step>)
    ensures Inv(Exec(INIT, steps))
  {
    assert Inv(INIT);
    RunKeeps(INIT, steps);
  }
}
