/**
 * What stands behind the signer's effects: which answer moves a row where, and what a request must have passed
 * before its message is signed. Stated of rows, log and steps, not of the transition functions.
 */
module SignerOutcomes {
  import opened Options
  import opened Basics
  import opened Replay
  import opened Signer

  // ---- which step moves a row where --------------------------------------------------------------

  /** Whether a row is new, or in another state than before. */
  predicate Moved(a: Table, b: Table, id: string) {
    id in b && (id !in a || a[id].state != b[id].state)
  }

  /** A request whose claim a step makes: policy passed, and for an envelope its verification too. */
  predicate Claims(s: Sys, step: Step, id: string) {
    || (step.StartSign? && step.request.id == id && step.policyOk && step.expiresAt.Some?)
    || (step.VerifyAnswered? && step.verified && step.policyOk && step.expiresAt.Some?
        && step.call in s.calls && s.calls[step.call].Verifying? && s.calls[step.call].request.id == id)
  }

  predicate Fences(s: Sys, step: Step, id: string) {
    && step.FenceAnswered? && step.call in s.calls && s.calls[step.call].AwaitingFence?
    && s.calls[step.call].request.id == id
    && s.calls[step.call].request.lastValidBlockHeight.Some? && step.height.Some?
    && step.height.value > s.calls[step.call].request.lastValidBlockHeight.value
  }

  predicate Signs(s: Sys, step: Step, id: string) {
    step.SignNow? && step.call in s.calls && s.calls[step.call].AboutToSign? && s.calls[step.call].request.id == id
  }

  predicate Broadcasts(s: Sys, step: Step, id: string) {
    step.BroadcastAnswered? && step.call in s.calls && s.calls[step.call].AwaitingRpc? && s.calls[step.call].id == id
  }

  predicate Reports(s: Sys, step: Step, id: string, status: TransactionStatus) {
    && step.StatusAnswered? && step.status == status
    && step.call in s.calls && s.calls[step.call].AwaitingStatus? && s.calls[step.call].id == id
  }

  predicate PastFence(s: Sys, step: Step, id: string) {
    && step.HeightAnswered? && step.call in s.calls && s.calls[step.call].AwaitingHeight? && s.calls[step.call].id == id
    && s.calls[step.call].data.lastValidBlockHeight.Some? && step.height.Some?
    && step.height.value > s.calls[step.call].data.lastValidBlockHeight.value
  }

  /** The one step that may have moved a row to the state it is in. */
  predicate Explained(s: Sys, step: Step, id: string, row: Row) {
    match row.state
    case Claimed => id !in s.table && Claims(s, step, id)
    case Signed => Signs(s, step, id) && step.outcome.Attached?
    case Failed => Signs(s, step, id) && !step.outcome.Attached?
    case Expired => Fences(s, step, id)
    case Reconciliation => Broadcasts(s, step, id) && step.returned != Some(s.calls[step.call].expected)
    case Broadcast =>
      || (Broadcasts(s, step, id) && step.returned == Some(s.calls[step.call].expected))
      || Reports(s, step, id, Processing)
    case Confirmed => Reports(s, step, id, Settled)
    case Reverted => Reports(s, step, id, StatusError)
    case Dropped => PastFence(s, step, id)
  }

  /**
   * Every move has its one cause: whatever else is in flight, a row comes to be confirmed only by a settled status,
   * reverted only by an error, dropped or expired only by a height past the fence, signed only by a signature that
   * was made, broadcast only by the expected signature or a status, and claimed only by a request that passed.
   */
  lemma EveryMoveExplained(s: Sys, step: Step, id: string)
    requires Moved(s.table, Apply(s, step).table, id)
    ensures Explained(s, step, id, Apply(s, step).table[id])
  {
  }

  /** What the cluster's word about a listed row makes of it. */
  predicate ReportedAs(before: Row, after: Row, status: TransactionStatus) {
    match status
    case StatusError => after.state == Reverted && after.version == before.version + 1
    case Settled => after.state == Confirmed && after.version == before.version + 1
    case Processing =>
      if before.state == Reconciliation then after.state == Broadcast && after.version == before.version + 1
      else after == before
    case Unknown => after == before
  }

  /** The status decides, as long as the row is still in the state the reconciliation read. */
  lemma StatusDecides(s: Sys, c: CallId, status: TransactionStatus)
    requires c in s.calls && s.calls[c].AwaitingStatus?
    requires s.calls[c].state == Broadcast || s.calls[c].state == Reconciliation
    requires s.calls[c].id in s.table && s.table[s.calls[c].id].state == s.calls[c].state
    ensures var call := s.calls[c]; var after := Apply(s, StatusAnswered(c, status)).table;
      && call.id in after && ReportedAs(s.table[call.id], after[call.id], status)
      && (after[call.id] != s.table[call.id] ==>
            after[call.id].data.Some? && after[call.id].data.value.signature == Some(call.signature))
      && (forall id | id in s.table && id != call.id :: id in after && after[id] == s.table[id])
  {
  }

  /** A height at or before the fence, or none to compare, lets the call sign; one past it burns the claim. */
  lemma FenceDecides(s: Sys, c: CallId, height: Option<int>)
    requires c in s.calls && s.calls[c].AwaitingFence?
    ensures var request := s.calls[c].request; var t := Apply(s, FenceAnswered(c, height));
      var fence := request.lastValidBlockHeight;
      if fence.Some? && height.Some? && height.value > fence.value && height.value >= 0 then
        && c !in t.calls
        && (MayTransition(s.table, request.id, Claimed) ==> t.table[request.id].state == Expired)
      else
        && t.table == s.table
        && (c in t.calls <==> fence.None? || height.None? || height.value >= 0)
        && (c in t.calls ==> t.calls[c] == AboutToSign(request))
  {
  }

  /** What a signature that was made leaves, as long as its claim stands: the row that holds it, and its answer. */
  lemma SigningDecides(s: Sys, c: CallId, result: SignResult)
    requires c in s.calls && s.calls[c].AboutToSign? && MayTransition(s.table, s.calls[c].request.id, Claimed)
    ensures var request := s.calls[c].request; var t := Apply(s, SignNow(c, Attached(result)));
      && t.log == s.log + [SignAttempted(request.id, Some(result)), Success(request.id, result)]
      && t.table[request.id].state == Signed
      && t.table[request.id].data == Some(Payload(Some(request.hash), Some(result.transaction), Some(result.signature),
                                                  None, request.lastValidBlockHeight))
  {
  }

  /** What the RPC answers to a broadcast, as long as the row is still `signed`. */
  lemma BroadcastDecides(s: Sys, c: CallId, returned: Option<string>)
    requires c in s.calls && s.calls[c].AwaitingRpc? && MayTransition(s.table, s.calls[c].id, Signed)
    ensures var call := s.calls[c]; var row := Apply(s, BroadcastAnswered(c, returned)).table[call.id];
      && row.data.Some? && row.data.value.lastValidBlockHeight == call.lastValidBlockHeight
      && (if returned == Some(call.expected) then row.state == Broadcast && row.data.value.signature == returned
          else row.state == Reconciliation && row.data.value.expected == Some(call.expected))
  {
  }

  /** A listed row is asked about under the signature it was broadcast with, or else the one expected of it. */
  lemma AsksForItsSignature(s: Sys, id: string)
    requires id in s.table && s.table[id].data.Some?
    requires s.table[id].state == Broadcast || s.table[id].state == Reconciliation
    ensures var data := s.table[id].data.value; var t := Apply(s, ReconcileRow(id));
      && t.table == s.table
      && (data.signature.Some? && data.signature.value != "" ==>
            t.calls == s.calls[s.next := AwaitingStatus(id, s.table[id].state, data, data.signature.value)])
      && (data.signature.None? && data.expected.Some? && data.expected.value != "" ==>
            t.calls == s.calls[s.next := AwaitingStatus(id, s.table[id].state, data, data.expected.value)])
  {
  }

  /** A signature never seen is asked about again at a height, and dropped past its fence. */
  lemma UnseenDecides(s: Sys, c: CallId, height: int)
    requires c in s.calls && s.calls[c].AwaitingHeight? && s.calls[c].data.lastValidBlockHeight.Some?
    requires MayTransition(s.table, s.calls[c].id, s.calls[c].state)
    ensures var call := s.calls[c]; var after := Apply(s, HeightAnswered(c, Some(height))).table;
      if height > call.data.lastValidBlockHeight.value
      then after[call.id].state == Dropped && after[call.id].data.Some? && after[call.id].data.value.signature == Some(call.signature)
      else after == s.table
  {
  }

  // ---- what a signing has behind it --------------------------------------------------------------

  /** A step was taken while this call was in flight. */
  ghost predicate TakenOf(steps: seq<Step>, step: Step, c: CallId, call: Call) {
    exists k :: 0 <= k < |steps| && steps[k] == step && c in Exec(INIT, steps[..k]).calls && Exec(INIT, steps[..k]).calls[c] == call
  }

  /** The request passed the policy, and as an envelope its verification too, and had a usable expiry. */
  ghost predicate Permitted(steps: seq<Step>, request: Request) {
    || (exists expiresAt :: StartSign(request, true, Some(expiresAt)) in steps)
    || (exists c, prior, expiresAt :: TakenOf(steps, VerifyAnswered(c, true, true, Some(expiresAt)), c, Verifying(request, prior)))
  }

  /** The chain was seen at a height the request's blockhash can still land at, where there is one to compare with. */
  ghost predicate FencePassed(steps: seq<Step>, request: Request) {
    exists c, height :: TakenOf(steps, FenceAnswered(c, height), c, AwaitingFence(request))
      && (request.lastValidBlockHeight.Some? && height.Some? ==> 0 <= height.value <= request.lastValidBlockHeight.value)
  }

  ghost predicate AttemptBehind(steps: seq<Step>, id: string, made: Option<SignResult>) {
    exists request: Request :: request.id == id && Permitted(steps, request) && FencePassed(steps, request)
      && (made.Some? ==> exists c :: SignNow(c, Attached(made.value)) in steps)
  }

  ghost predicate CallBehind(steps: seq<Step>, call: Call) {
    match call
    case AwaitingFence(request) => Permitted(steps, request)
    case AboutToSign(request) => Permitted(steps, request) && FencePassed(steps, request)
    case _ => true
  }

  ghost predicate AllBehind(steps: seq<Step>, s: Sys) {
    && (forall c | c in s.calls :: CallBehind(steps, s.calls[c]))
    && (forall i | 0 <= i < |s.log| && s.log[i].SignAttempted? :: AttemptBehind(steps, s.log[i].id, s.log[i].made))
  }

  lemma TakenStays(steps: seq<Step>, more: Step, step: Step, c: CallId, call: Call)
    requires TakenOf(steps, step, c, call)
    ensures TakenOf(steps + [more], step, c, call)
  {
    var k :| 0 <= k < |steps| && steps[k] == step && c in Exec(INIT, steps[..k]).calls && Exec(INIT, steps[..k]).calls[c] == call;
    assert (steps + [more])[..k] == steps[..k] && (steps + [more])[k] == steps[k];
  }

  lemma TakenNow(steps: seq<Step>, step: Step, c: CallId)
    requires c in Exec(INIT, steps).calls
    ensures TakenOf(steps + [step], step, c, Exec(INIT, steps).calls[c])
  {
    assert (steps + [step])[..|steps|] == steps && (steps + [step])[|steps|] == step;
  }

  lemma PermittedStays(steps: seq<Step>, more: Step, request: Request)
    requires Permitted(steps, request)
    ensures Permitted(steps + [more], request)
  {
    if expiresAt :| StartSign(request, true, Some(expiresAt)) in steps {
      assert StartSign(request, true, Some(expiresAt)) in steps + [more];
    } else {
      var c, prior, expiresAt :| TakenOf(steps, VerifyAnswered(c, true, true, Some(expiresAt)), c, Verifying(request, prior));
      TakenStays(steps, more, VerifyAnswered(c, true, true, Some(expiresAt)), c, Verifying(request, prior));
    }
  }

  lemma FenceStays(steps: seq<Step>, more: Step, request: Request)
    requires FencePassed(steps, request)
    ensures FencePassed(steps + [more], request)
  {
    var c, height :| TakenOf(steps, FenceAnswered(c, height), c, AwaitingFence(request))
      && (request.lastValidBlockHeight.Some? && height.Some? ==> 0 <= height.value <= request.lastValidBlockHeight.value);
    TakenStays(steps, more, FenceAnswered(c, height), c, AwaitingFence(request));
  }

  lemma CallStays(steps: seq<Step>, more: Step, call: Call)
    requires CallBehind(steps, call)
    ensures CallBehind(steps + [more], call)
  {
    if call.AwaitingFence? || call.AboutToSign? {
      PermittedStays(steps, more, call.request);
    }
    if call.AboutToSign? {
      FenceStays(steps, more, call.request);
    }
  }

  lemma AttemptStays(steps: seq<Step>, more: Step, id: string, made: Option<SignResult>)
    requires AttemptBehind(steps, id, made)
    ensures AttemptBehind(steps + [more], id, made)
  {
    var request: Request :| request.id == id && Permitted(steps, request) && FencePassed(steps, request)
      && (made.Some? ==> exists c :: SignNow(c, Attached(made.value)) in steps);
    PermittedStays(steps, more, request);
    FenceStays(steps, more, request);
    if made.Some? {
      var c :| SignNow(c, Attached(made.value)) in steps;
      assert SignNow(c, Attached(made.value)) in steps + [more];
    }
  }

  /** A claim is all that opens a call past it, and a fence that is passed all that lets it sign. */
  lemma OnlyTheseGoOn(s: Sys, step: Step, c: CallId)
    requires c in Apply(s, step).calls && (c !in s.calls || Apply(s, step).calls[c] != s.calls[c])
    ensures var call := Apply(s, step).calls[c];
      && (call.AwaitingFence? ==>
            && Claims(s, step, call.request.id)
            && call.request == if step.StartSign? then step.request else s.calls[step.call].request)
      && (call.AboutToSign? ==>
            && step.FenceAnswered? && step.call in s.calls && s.calls[step.call] == AwaitingFence(call.request)
            && (call.request.lastValidBlockHeight.Some? && step.height.Some? ==>
                  0 <= step.height.value <= call.request.lastValidBlockHeight.value))
  {
  }

  lemma NewCalls(steps: seq<Step>, s: Sys, step: Step, c: CallId)
    requires s == Exec(INIT, steps) && AllBehind(steps, s)
    requires c in Apply(s, step).calls && (c !in s.calls || Apply(s, step).calls[c] != s.calls[c])
    ensures CallBehind(steps + [step], Apply(s, step).calls[c])
  {
    OnlyTheseGoOn(s, step, c);
    var after, call := steps + [step], Apply(s, step).calls[c];
    assert after[|steps|] == step && step in after;
    if call.AwaitingFence? {
      if step.VerifyAnswered? {
        TakenNow(steps, step, step.call);
      }
    } else if call.AboutToSign? {
      TakenNow(steps, step, step.call);
      CallStays(steps, step, s.calls[step.call]);
    }
  }

  /** Only a call that is about to sign logs an attempt. */
  lemma OnlySigningAttempts(s: Sys, step: Step)
    ensures var log := Apply(s, step).log;
      && s.log <= log
      && forall i | |s.log| <= i < |log| && log[i].SignAttempted? ::
           && Signs(s, step, log[i].id)
           && log[i].made == if step.outcome.Attached? then Some(step.outcome.result) else None
  {
  }

  lemma StepBehind(steps: seq<Step>, s: Sys, step: Step)
    requires s == Exec(INIT, steps) && AllBehind(steps, s)
    ensures AllBehind(steps + [step], Apply(s, step))
  {
    var after, t := steps + [step], Apply(s, step);
    forall c | c in t.calls ensures CallBehind(after, t.calls[c]) {
      if c in s.calls && t.calls[c] == s.calls[c] {
        CallStays(steps, step, s.calls[c]);
      } else {
        NewCalls(steps, s, step, c);
      }
    }
    OnlySigningAttempts(s, step);
    forall i | 0 <= i < |t.log| && t.log[i].SignAttempted? ensures AttemptBehind(after, t.log[i].id, t.log[i].made) {
      if i < |s.log| {
        AttemptStays(steps, step, s.log[i].id, s.log[i].made);
      } else {
        CallStays(steps, step, s.calls[step.call]);
        assert after[|steps|] == step && step in after;
      }
    }
  }

  lemma {:induction false} RunBehind(steps: seq<Step>)
    ensures AllBehind(steps, Exec(INIT, steps))
  {
    if steps != [] {
      var front, last := steps[..|steps| - 1], steps[|steps| - 1];
      RunBehind(front);
      assert steps == front + [last];
      OneMore(INIT, front, last);
      StepBehind(front, Exec(INIT, front), last);
    }
  }

  /**
   * Nothing is signed unvetted. Behind every attempt, in any run with restarts, lies a request under its id that
   * passed the policy, as an envelope its verification too, and then a height at which its blockhash can still
   * land; and the signature made, if any, is the one the account attached.
   */
  lemma NothingSignedUnvetted(steps: seq<Step>, i: nat) returns (request: Request)
    requires i < |Exec(INIT, steps).log| && Exec(INIT, steps).log[i].SignAttempted?
    ensures var e := Exec(INIT, steps).log[i];
      && request.id == e.id && Permitted(steps, request) && FencePassed(steps, request)
      && (e.made.Some? ==> exists c :: SignNow(c, Attached(e.made.value)) in steps)
  {
    RunBehind(steps);
    var e := Exec(INIT, steps).log[i];
    assert AttemptBehind(steps, e.id, e.made);
    request :| request.id == e.id && Permitted(steps, request) && FencePassed(steps, request)
      && (e.made.Some? ==> exists c :: SignNow(c, Attached(e.made.value)) in steps);
  }

  // ---- who is handed a stored signature ----------------------------------------------------------

  /**
   * A stored signature is handed only to a request for the same message: its hash, in either case of letters, is
   * the one stored with the signature, and the row is still `signed`.
   */
  lemma HandedOnlyForItsMessage(t: Table, id: string, hash: string)
    ensures Stored(t, id, hash).Prior? <==>
      && hash != "" && id in t && t[id].state == Signed && t[id].data.Some?
      && t[id].data.value.requestHash.Some? && SameLetters(t[id].data.value.requestHash.value, hash)
      && t[id].data.value.transaction.Some? && t[id].data.value.transaction.value != ""
    ensures Stored(t, id, hash).Prior? ==>
      && Stored(t, id, hash).found.transaction == t[id].data.value.transaction.value
      && (t[id].data.value.signature.Some? ==> Stored(t, id, hash).found.signature == t[id].data.value.signature.value)
  {
    if id in t && t[id].data.Some? && t[id].data.value.requestHash.Some? {
      LowerIsSameLetters(t[id].data.value.requestHash.value, hash);
    }
  }
}
