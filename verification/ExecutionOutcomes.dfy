/**
 * What stands behind the host's effects: which answer moves an execution where, and what it must have passed before
 * its bytes go to the signer. Stated of rows, quotes, log and steps, not of the transition functions.
 */
module ExecutionOutcomes {
  import opened Options
  import opened Executions

  // ---- which step moves a row where --------------------------------------------------------------

  predicate Moved(a: Rows, b: Rows, id: ExecutionId) {
    id in b && (id !in a || a[id].state != b[id].state)
  }

  /** The height that answers a `submit` is within, or past, the fence of the execution's quote. */
  predicate HeightIs(s: Sys, step: Step, id: ExecutionId, within: bool) {
    && step.SubmitHeightAnswered? && step.call in s.calls && s.calls[step.call].SubmitHeight? && s.calls[step.call].id == id
    && id in s.rows && s.rows[id].quoteId in s.quotes
    && (within <==> step.height <= s.quotes[s.rows[id].quoteId].lastValidBlockHeight)
  }

  /** The ledger says the reservation still stands. */
  predicate ReservationStands(s: Sys, step: Step, id: ExecutionId) {
    && step.SubmitReservationAnswered? && step.valid
    && step.call in s.calls && s.calls[step.call].SubmitReservation? && s.calls[step.call].id == id
  }

  predicate Consumes(step: Step) {
    (step.SubmitHeightAnswered? || step.SubmitReservationAnswered?) && !step.consumption.ConsumeThrows?
  }

  /** The signature a step stores for an execution. */
  predicate StoresSignature(s: Sys, step: Step, id: ExecutionId, signature: Option<string>) {
    || (step.Signed? && step.call in s.calls && s.calls[step.call].SubmitSigning? && s.calls[step.call].id == id
        && signature == Some(step.reply.signature))
    || (step.ResultAnswered? && step.result.ResultSigned? && step.call in s.calls && s.calls[step.call].RecoverResult?
        && s.calls[step.call].id == id && signature == Some(step.result.signature))
  }

  predicate Commits(s: Sys, step: Step, id: ExecutionId) {
    && step.Committed? && step.call in s.calls && s.calls[step.call].id == id
    && (s.calls[step.call].SubmitCommitting? || s.calls[step.call].RecoverCommitting?)
  }

  /** The chain's word on an execution, as `state`. */
  predicate Reports(s: Sys, step: Step, id: ExecutionId, state: TradeState) {
    && step.StatusAnswered? && step.status.Some?
    && step.call in s.calls && s.calls[step.call].ReconcileStatus? && s.calls[step.call].id == id
    && match step.status.value
       case StatusError => state == Failed
       case StatusFinalized => state == Finalized
       case StatusConfirmed => state == if step.confirmedIsFinal then Finalized else Confirmed
       case StatusProcessed => state == Confirmed
  }

  /** A reconciliation's height is past, or not past, the fence it read with the row. */
  predicate UnseenAt(s: Sys, step: Step, id: ExecutionId, past: bool) {
    && step.ReconcileHeightAnswered? && step.call in s.calls && s.calls[step.call].ReconcileHeight? && s.calls[step.call].id == id
    && (past <==> s.calls[step.call].seen.lastValidBlockHeight.Some?
                  && step.height > s.calls[step.call].seen.lastValidBlockHeight.value)
  }

  predicate Releases(s: Sys, step: Step, id: ExecutionId) {
    || (step.SubmitReleased? && step.call in s.calls && s.calls[step.call].SubmitExpiring? && s.calls[step.call].id == id)
    || (step.ReconcileReleased? && step.call in s.calls && s.calls[step.call].ReconcileReleasing? && s.calls[step.call].id == id)
  }

  predicate SaysExpired(s: Sys, step: Step, id: ExecutionId) {
    && step.ResultAnswered? && step.result.ResultExpired?
    && step.call in s.calls && s.calls[step.call].RecoverResult? && s.calls[step.call].id == id
  }

  /** The one step that may have moved a row to the state it is in. */
  predicate Explained(s: Sys, step: Step, id: ExecutionId, row: Execution) {
    match row.state
    case DryRun => id !in s.rows && step.Create? && step.id == id && step.dryRun
    case AwaitingApproval => id !in s.rows && step.Create? && step.id == id && !step.dryRun && step.approvalRequired
    case Approved =>
      || (id !in s.rows && step.Create? && step.id == id && !step.dryRun && !step.approvalRequired)
      || (step == Refresh(id, ApprovedStatus) && MayTransition(s.rows, id, AwaitingApproval))
    case Denied => step == Refresh(id, DeniedStatus) && MayTransition(s.rows, id, AwaitingApproval)
    case Signing =>
      MayTransition(s.rows, id, Approved) && Consumes(step) && (HeightIs(s, step, id, true) || ReservationStands(s, step, id))
    case Submitting => MayTransition(s.rows, id, Signing) && StoresSignature(s, step, id, row.signature)
    case Broadcast => MayTransition(s.rows, id, Submitting) && Commits(s, step, id)
    case Confirmed => Reports(s, step, id, Confirmed)
    case Finalized => Reports(s, step, id, Finalized)
    case Failed => Reports(s, step, id, Failed)
    case Expired => HeightIs(s, step, id, false) || SaysExpired(s, step, id) || (Releases(s, step, id) && step.SubmitReleased?)
    case Dropped => UnseenAt(s, step, id, true) || (Releases(s, step, id) && step.ReconcileReleased?)
    case ReconciliationRequired =>
      || MayTransition(s.rows, id, Submitting)
      || UnseenAt(s, step, id, false)
      || (step.StatusAnswered? && step.status.None?)
      || (StoresSignature(s, step, id, row.signature) && step.Signed? && step.reply.sent.Some?
          && step.reply.sent.value != step.reply.signature)
  }

  lemma CreateExplained(s: Sys, step: Step, id: ExecutionId)
    requires step.Create? || step.Refresh?
    requires Moved(s.rows, Apply(s, step).rows, id)
    ensures Explained(s, step, id, Apply(s, step).rows[id])
  {
  }

  lemma FailExplained(s: Sys, step: Step, id: ExecutionId)
    requires step.Recover? || step.Rejects?
    requires Moved(s.rows, Apply(s, step).rows, id)
    ensures Explained(s, step, id, Apply(s, step).rows[id])
  {
  }

  lemma OthersMoveNothing(s: Sys, step: Step)
    requires step.PutQuote? || step.Submit? || step.RecoverSigning? || step.Reconcile? || step.Crash?
    ensures Apply(s, step).rows == s.rows
  {
  }

  lemma SubmitExplained(s: Sys, step: Step, id: ExecutionId)
    requires step.SubmitHeightAnswered? || step.SubmitReleased? || step.SubmitReservationAnswered?
    requires Moved(s.rows, Apply(s, step).rows, id)
    ensures Explained(s, step, id, Apply(s, step).rows[id])
  {
  }

  lemma IssuedExplained(s: Sys, step: Step, id: ExecutionId)
    requires step.Issued?
    requires Moved(s.rows, Apply(s, step).rows, id)
    ensures Explained(s, step, id, Apply(s, step).rows[id])
  {
  }

  lemma SignedExplained(s: Sys, step: Step, id: ExecutionId)
    requires step.Signed?
    requires Moved(s.rows, Apply(s, step).rows, id)
    ensures Explained(s, step, id, Apply(s, step).rows[id])
  {
  }

  lemma LandedExplained(s: Sys, step: Step, id: ExecutionId)
    requires step.Landed? || step.Committed?
    requires Moved(s.rows, Apply(s, step).rows, id)
    ensures Explained(s, step, id, Apply(s, step).rows[id])
  {
  }

  lemma ResultExplained(s: Sys, step: Step, id: ExecutionId)
    requires step.ResultAnswered?
    requires Moved(s.rows, Apply(s, step).rows, id)
    ensures Explained(s, step, id, Apply(s, step).rows[id])
  {
  }

  lemma StatusExplained(s: Sys, step: Step, id: ExecutionId)
    requires step.StatusAnswered?
    requires Moved(s.rows, Apply(s, step).rows, id)
    ensures Explained(s, step, id, Apply(s, step).rows[id])
  {
  }

  lemma HeightExplained(s: Sys, step: Step, id: ExecutionId)
    requires step.ReconcileHeightAnswered?
    requires Moved(s.rows, Apply(s, step).rows, id)
    ensures Explained(s, step, id, Apply(s, step).rows[id])
  {
  }

  lemma ReleaseExplained(s: Sys, step: Step, id: ExecutionId)
    requires step.ReconcileReleased?
    requires Moved(s.rows, Apply(s, step).rows, id)
    ensures Explained(s, step, id, Apply(s, step).rows[id])
  {
  }

  /**
   * Every move has its one cause: signing only after a height within the fence or a standing reservation, with the
   * approval consumed; expired only past the fence, by the signer's word or once the reservation is let go;
   * confirmed, finalized and failed only by what the chain reports; dropped only past the fence.
   */
  lemma EveryMoveExplained(s: Sys, step: Step, id: ExecutionId)
    requires Moved(s.rows, Apply(s, step).rows, id)
    ensures Explained(s, step, id, Apply(s, step).rows[id])
  {
    match step
    case SubmitHeightAnswered(_, _, _, _) => SubmitExplained(s, step, id);
    case SubmitReleased(_) => SubmitExplained(s, step, id);
    case SubmitReservationAnswered(_, _, _) => SubmitExplained(s, step, id);
    case Issued(_, _) => IssuedExplained(s, step, id);
    case Signed(_, _) => SignedExplained(s, step, id);
    case Landed(_, _) => LandedExplained(s, step, id);
    case Committed(_) => LandedExplained(s, step, id);
    case ResultAnswered(_, _) => ResultExplained(s, step, id);
    case StatusAnswered(_, _, _) => StatusExplained(s, step, id);
    case ReconcileHeightAnswered(_, _) => HeightExplained(s, step, id);
    case ReconcileReleased(_) => ReleaseExplained(s, step, id);
    case Create(_, _, _, _, _, _, _) => CreateExplained(s, step, id);
    case Refresh(_, _) => CreateExplained(s, step, id);
    case Recover(_) => FailExplained(s, step, id);
    case Rejects(_) => FailExplained(s, step, id);
    case _ => OthersMoveNothing(s, step);
  }

  // ---- where an answer leads ---------------------------------------------------------------------

  /**
   * The replay fence of `submit`. Past the quote's last valid height nothing is consumed, and the execution expires
   * at once or once its reservation is let go. Up to it the reservation is asked about, or the approval consumed
   * and an authorization asked for, the execution `signing`.
   */
  lemma FenceDecides(s: Sys, c: CallId, height: int, hasLedger: bool, consumption: Consumption)
    requires c in s.calls && s.calls[c].SubmitHeight? && MayTransition(s.rows, s.calls[c].id, s.calls[c].from)
    requires s.calls[c].from == Approved || s.calls[c].from == Signing
    requires s.rows[s.calls[c].id].quoteId in s.quotes && s.rows[s.calls[c].id].approvalId.Some? && !consumption.ConsumeThrows?
    ensures var id := s.calls[c].id; var x := s.rows[id]; var fence := s.quotes[x.quoteId].lastValidBlockHeight;
      var t := Apply(s, SubmitHeightAnswered(c, height, hasLedger, consumption));
      && id in t.rows
      && (height > fence ==> t.log == s.log)
      && (height > fence && x.reservationId.None? ==> t.rows[id].state == Expired && c !in t.calls)
      && (height > fence && x.reservationId.Some? ==>
            t.rows == s.rows && t.calls == s.calls[c := SubmitExpiring(id, s.calls[c].from)])
      && (height <= fence && x.reservationId.Some? && hasLedger ==>
            t.rows == s.rows && t.log == s.log && t.calls == s.calls[c := SubmitReservation(id, s.calls[c].from)])
      && (height <= fence && !(x.reservationId.Some? && hasLedger) ==>
            && t.rows[id].state == Signing && t.log == s.log + [ApprovalConsumed(id)]
            && t.calls == s.calls[c := SubmitIssuing(id)])
  {
  }

  /** What the chain reports decides, as long as the row is in the state the reconciliation read. */
  lemma StatusDecides(s: Sys, c: CallId, status: ChainStatus, confirmedIsFinal: bool)
    requires c in s.calls && s.calls[c].ReconcileStatus? && MayTransition(s.rows, s.calls[c].id, s.calls[c].seen.state)
    ensures var id := s.calls[c].id; var row := Apply(s, StatusAnswered(c, Some(status), confirmedIsFinal)).rows[id];
      && row.signature == s.calls[c].seen.signature
      && match status
         case StatusError => row.state == Failed
         case StatusFinalized => row.state == Finalized
         case StatusConfirmed => row.state == if confirmedIsFinal then Finalized else Confirmed
         case StatusProcessed => row.state == Confirmed
  {
  }

  /** A signature the chain has not seen is dropped past its fence, and looked for again before it. */
  lemma UnseenDecides(s: Sys, c: CallId, height: int)
    requires c in s.calls && s.calls[c].ReconcileHeight? && MayTransition(s.rows, s.calls[c].id, s.calls[c].seen.state)
    requires s.calls[c].seen.lastValidBlockHeight.Some?
    ensures var id := s.calls[c].id; var seen := s.calls[c].seen; var t := Apply(s, ReconcileHeightAnswered(c, height));
      && id in t.rows
      && (height > seen.lastValidBlockHeight.value && seen.reservationId.None? ==> t.rows[id].state == Dropped)
      && (height > seen.lastValidBlockHeight.value && seen.reservationId.Some? ==>
            t.rows == s.rows && t.calls == s.calls[c := ReconcileReleasing(id, seen)])
      && (height <= seen.lastValidBlockHeight.value ==> t.rows[id].state == ReconciliationRequired)
  {
  }

  /** The signer's answer is stored before anything is sent, and sent by the host unless the signer did. */
  lemma SigningDecides(s: Sys, c: CallId, reply: SignedReply)
    requires c in s.calls && s.calls[c].SubmitSigning? && MayTransition(s.rows, s.calls[c].id, Signing)
    requires s.rows[s.calls[c].id].quoteId in s.quotes
    ensures var id := s.calls[c].id; var t := Apply(s, Executions.Signed(c, reply));
      var quote := s.quotes[s.rows[id].quoteId];
      && t.rows[id].signature == Some(reply.signature) && t.rows[id].messageHash == Some(quote.messageHash)
      && t.rows[id].lastValidBlockHeight == Some(quote.lastValidBlockHeight)
      && (reply.sent.None? ==>
            t.rows[id].state == Submitting
            && t.log == s.log + [SignatureStored(id, reply.signature), BroadcastRequested(id, reply.signature)])
      && (reply.sent == Some(reply.signature) ==>
            t.rows[id].state == Submitting && t.log == s.log + [SignatureStored(id, reply.signature)])
      && (reply.sent.Some? && reply.sent.value != reply.signature ==> t.rows[id].state == ReconciliationRequired)
  {
  }

  // ---- what a signing request has behind it ------------------------------------------------------

  /** A step taken in a state where it meant this. */
  ghost predicate Submitted(steps: seq<Step>, id: ExecutionId) {
    exists k :: 0 <= k < |steps| && steps[k].Submit? && steps[k].id == id && Submittable(Exec(INIT, steps[..k]), id, steps[k].now)
  }

  /** Approved, or stranded in `signing`, on an exact quote that has not expired. */
  predicate Submittable(s: Sys, id: ExecutionId, now: int) {
    && id in s.rows && (s.rows[id].state == Approved || s.rows[id].state == Signing)
    && s.rows[id].quoteId in s.quotes && s.quotes[s.rows[id].quoteId].exact && now < s.quotes[s.rows[id].quoteId].expiresAt
  }

  /** The call `c` was answered a height on that side of its execution's fence. */
  ghost predicate HeightSeen(steps: seq<Step>, c: CallId, id: ExecutionId, within: bool) {
    exists k :: 0 <= k < |steps| && HeightIs(Exec(INIT, steps[..k]), steps[k], id, within) && steps[k].call == c
  }

  ghost predicate ApprovalTaken(steps: seq<Step>, c: CallId) {
    exists k :: 0 <= k < |steps| && Consumes(steps[k]) && steps[k].call == c
  }

  /** The signer's lookup, or the chain's height, said that the blockhash is dead. */
  ghost predicate KnownDead(steps: seq<Step>, c: CallId, id: ExecutionId) {
    || HeightSeen(steps, c, id, false)
    || exists k :: 0 <= k < |steps| && SaysExpired(Exec(INIT, steps[..k]), steps[k], id) && steps[k].call == c
  }

  ghost predicate CallBehind(steps: seq<Step>, c: CallId, call: Call) {
    match call
    case SubmitHeight(id, _) => Submitted(steps, id)
    case SubmitReservation(id, _) => Submitted(steps, id) && HeightSeen(steps, c, id, true)
    case SubmitIssuing(id) => Submitted(steps, id) && HeightSeen(steps, c, id, true) && ApprovalTaken(steps, c)
    case SubmitSigning(id, _) => Submitted(steps, id) && HeightSeen(steps, c, id, true) && ApprovalTaken(steps, c)
    case SubmitExpiring(id, _) => KnownDead(steps, c, id)
    case _ => true
  }

  /** A signing request, and the consumption of an approval, has a whole submission within the fence behind it. */
  ghost predicate EventBehind(steps: seq<Step>, e: Event) {
    e.SignRequested? || e.ApprovalConsumed? ==>
      exists c :: Submitted(steps, e.id) && HeightSeen(steps, c, e.id, true) && ApprovalTaken(steps, c)
  }

  ghost predicate RowBehind(steps: seq<Step>, id: ExecutionId, row: Execution) {
    && (row.state == Signing ==> exists c :: HeightSeen(steps, c, id, true) && ApprovalTaken(steps, c))
    && (row.state == Expired ==> exists c :: KnownDead(steps, c, id))
  }

  ghost predicate AllBehind(steps: seq<Step>, s: Sys) {
    && (forall c | c in s.calls :: CallBehind(steps, c, s.calls[c]))
    && (forall i | 0 <= i < |s.log| :: EventBehind(steps, s.log[i]))
    && (forall id | id in s.rows :: RowBehind(steps, id, s.rows[id]))
  }

  // ---- what is behind stays behind ---------------------------------------------------------------

  lemma SubmittedStays(steps: seq<Step>, more: Step, id: ExecutionId)
    requires Submitted(steps, id)
    ensures Submitted(steps + [more], id)
  {
    var k :| 0 <= k < |steps| && steps[k].Submit? && steps[k].id == id && Submittable(Exec(INIT, steps[..k]), id, steps[k].now);
    assert (steps + [more])[..k] == steps[..k] && (steps + [more])[k] == steps[k];
  }

  lemma HeightStays(steps: seq<Step>, more: Step, c: CallId, id: ExecutionId, within: bool)
    requires HeightSeen(steps, c, id, within)
    ensures HeightSeen(steps + [more], c, id, within)
  {
    var k :| 0 <= k < |steps| && HeightIs(Exec(INIT, steps[..k]), steps[k], id, within) && steps[k].call == c;
    assert (steps + [more])[..k] == steps[..k] && (steps + [more])[k] == steps[k];
  }

  lemma TakenStays(steps: seq<Step>, more: Step, c: CallId)
    requires ApprovalTaken(steps, c)
    ensures ApprovalTaken(steps + [more], c)
  {
    var k :| 0 <= k < |steps| && Consumes(steps[k]) && steps[k].call == c;
    assert (steps + [more])[k] == steps[k];
  }

  lemma DeadStays(steps: seq<Step>, more: Step, c: CallId, id: ExecutionId)
    requires KnownDead(steps, c, id)
    ensures KnownDead(steps + [more], c, id)
  {
    if HeightSeen(steps, c, id, false) {
      HeightStays(steps, more, c, id, false);
    } else {
      var k :| 0 <= k < |steps| && SaysExpired(Exec(INIT, steps[..k]), steps[k], id) && steps[k].call == c;
      assert (steps + [more])[..k] == steps[..k] && (steps + [more])[k] == steps[k];
    }
  }

  lemma CallStays(steps: seq<Step>, more: Step, c: CallId, call: Call)
    requires CallBehind(steps, c, call)
    ensures CallBehind(steps + [more], c, call)
  {
    match call
    case SubmitHeight(id, _) => SubmittedStays(steps, more, id);
    case SubmitReservation(id, _) =>
      SubmittedStays(steps, more, id);
      HeightStays(steps, more, c, id, true);
    case SubmitIssuing(id) => PassedStays(steps, more, c, id);
    case SubmitSigning(id, _) => PassedStays(steps, more, c, id);
    case SubmitExpiring(id, _) => DeadStays(steps, more, c, id);
    case _ =>
  }

  lemma PassedStays(steps: seq<Step>, more: Step, c: CallId, id: ExecutionId)
    requires Submitted(steps, id) && HeightSeen(steps, c, id, true) && ApprovalTaken(steps, c)
    ensures Submitted(steps + [more], id) && HeightSeen(steps + [more], c, id, true) && ApprovalTaken(steps + [more], c)
  {
    SubmittedStays(steps, more, id);
    HeightStays(steps, more, c, id, true);
    TakenStays(steps, more, c);
  }

  lemma EventStays(steps: seq<Step>, more: Step, e: Event)
    requires EventBehind(steps, e)
    ensures EventBehind(steps + [more], e)
  {
    if e.SignRequested? || e.ApprovalConsumed? {
      var c :| Submitted(steps, e.id) && HeightSeen(steps, c, e.id, true) && ApprovalTaken(steps, c);
      PassedStays(steps, more, c, e.id);
    }
  }

  lemma RowStays(steps: seq<Step>, more: Step, id: ExecutionId, a: Execution, b: Execution)
    requires RowBehind(steps, id, a) && a.state == b.state
    ensures RowBehind(steps + [more], id, b)
  {
    if a.state == Signing {
      var c :| HeightSeen(steps, c, id, true) && ApprovalTaken(steps, c);
      HeightStays(steps, more, c, id, true);
      TakenStays(steps, more, c);
    } else if a.state == Expired {
      var c :| KnownDead(steps, c, id);
      DeadStays(steps, more, c, id);
    }
  }

  // ---- a step of the system ----------------------------------------------------------------------

  /** What a step must be for a call to come to this await. */
  predicate LeadsTo(s: Sys, step: Step, c: CallId, call: Call) {
    match call
    case SubmitHeight(id, _) => step.Submit? && step.id == id && Submittable(s, id, step.now)
    case SubmitReservation(id, _) => HeightIs(s, step, id, true) && step.call == c
    case SubmitIssuing(id) =>
      Consumes(step) && step.call == c && (HeightIs(s, step, id, true) || ReservationStands(s, step, id))
    case SubmitSigning(id, _) => step.Issued? && step.call == c && c in s.calls && s.calls[c] == SubmitIssuing(id)
    case SubmitExpiring(id, _) =>
      (HeightIs(s, step, id, false) && step.call == c) || (SaysExpired(s, step, id) && step.call == c)
    case _ => true
  }

  lemma SubmitLeads(s: Sys, step: Step, c: CallId)
    requires step.SubmitHeightAnswered? || step.SubmitReservationAnswered? || step.Submit?
    requires c in Apply(s, step).calls && (c !in s.calls || Apply(s, step).calls[c] != s.calls[c])
    ensures LeadsTo(s, step, c, Apply(s, step).calls[c])
  {
  }

  lemma SigningLeads(s: Sys, step: Step, c: CallId)
    requires step.Issued? || step.Signed? || step.Landed? || step.Committed? || step.ResultAnswered?
    requires c in Apply(s, step).calls && (c !in s.calls || Apply(s, step).calls[c] != s.calls[c])
    ensures LeadsTo(s, step, c, Apply(s, step).calls[c])
  {
  }

  lemma ReconcilingLeads(s: Sys, step: Step, c: CallId)
    requires step.RecoverSigning? || step.Reconcile? || step.StatusAnswered? || step.ReconcileHeightAnswered?
    requires c in Apply(s, step).calls && (c !in s.calls || Apply(s, step).calls[c] != s.calls[c])
    ensures LeadsTo(s, step, c, Apply(s, step).calls[c])
  {
  }

  lemma OthersOpenNothing(s: Sys, step: Step)
    requires step.PutQuote? || step.Create? || step.Refresh? || step.SubmitReleased? || step.Recover?
             || step.ReconcileReleased? || step.Rejects? || step.Crash?
    ensures forall c | c in Apply(s, step).calls :: c in s.calls && Apply(s, step).calls[c] == s.calls[c]
  {
  }

  /** What a step must be to log an approval or a signing request. */
  predicate Logs(s: Sys, step: Step, e: Event) {
    && (e.ApprovalConsumed? ==> Consumes(step) && (HeightIs(s, step, e.id, true) || ReservationStands(s, step, e.id)))
    && (e.SignRequested? ==> step.Issued? && step.call in s.calls && s.calls[step.call] == SubmitIssuing(e.id))
  }

  lemma SubmitLogs(s: Sys, step: Step)
    requires step.SubmitHeightAnswered? || step.SubmitReservationAnswered? || step.Issued?
    ensures var log := Apply(s, step).log;
      s.log <= log && forall i | |s.log| <= i < |log| :: Logs(s, step, log[i])
  {
  }

  lemma OthersLog(s: Sys, step: Step)
    requires !step.SubmitHeightAnswered? && !step.SubmitReservationAnswered? && !step.Issued?
    ensures var log := Apply(s, step).log;
      s.log <= log && forall i | |s.log| <= i < |log| :: !log[i].ApprovalConsumed? && !log[i].SignRequested?
  {
  }

  lemma OnlyTheseLog(s: Sys, step: Step)
    ensures var log := Apply(s, step).log;
      s.log <= log && forall i | |s.log| <= i < |log| :: Logs(s, step, log[i])
  {
    if step.SubmitHeightAnswered? || step.SubmitReservationAnswered? || step.Issued? {
      SubmitLogs(s, step);
    } else {
      OthersLog(s, step);
    }
  }

  lemma HeightSeenNow(steps: seq<Step>, s: Sys, step: Step, id: ExecutionId, within: bool)
    requires s == Exec(INIT, steps) && HeightIs(s, step, id, within)
    ensures HeightSeen(steps + [step], step.call, id, within)
  {
    assert (steps + [step])[..|steps|] == steps && (steps + [step])[|steps|] == step;
  }

  /** A submission that gets past its fence, at a height or with a standing reservation. */
  lemma PassedNow(steps: seq<Step>, s: Sys, step: Step, id: ExecutionId)
    requires s == Exec(INIT, steps) && AllBehind(steps, s)
    requires Consumes(step) && (HeightIs(s, step, id, true) || ReservationStands(s, step, id))
    ensures Submitted(steps + [step], id) && HeightSeen(steps + [step], step.call, id, true) && ApprovalTaken(steps + [step], step.call)
  {
    var after := steps + [step];
    assert after[..|steps|] == steps && after[|steps|] == step;
    CallStays(steps, step, step.call, s.calls[step.call]);
    if HeightIs(s, step, id, true) {
      HeightSeenNow(steps, s, step, id, true);
    }
  }

  lemma NewCall(steps: seq<Step>, s: Sys, step: Step, c: CallId)
    requires s == Exec(INIT, steps) && AllBehind(steps, s)
    requires c in Apply(s, step).calls && LeadsTo(s, step, c, Apply(s, step).calls[c])
    ensures CallBehind(steps + [step], c, Apply(s, step).calls[c])
  {
    var after, call := steps + [step], Apply(s, step).calls[c];
    assert after[..|steps|] == steps && after[|steps|] == step;
    match call
    case SubmitHeight(id, _) => assert Submitted(after, id);
    case SubmitReservation(id, _) =>
      CallStays(steps, step, c, s.calls[c]);
      HeightSeenNow(steps, s, step, id, true);
    case SubmitIssuing(id) => PassedNow(steps, s, step, id);
    case SubmitSigning(id, _) => CallStays(steps, step, c, s.calls[c]);
    case SubmitExpiring(id, _) =>
      if HeightIs(s, step, id, false) {
        HeightSeenNow(steps, s, step, id, false);
      }
    case _ =>
  }

  lemma NewEvent(steps: seq<Step>, s: Sys, step: Step, e: Event)
    requires s == Exec(INIT, steps) && AllBehind(steps, s) && Logs(s, step, e)
    ensures EventBehind(steps + [step], e)
  {
    if e.ApprovalConsumed? {
      PassedNow(steps, s, step, e.id);
    } else if e.SignRequested? {
      CallStays(steps, step, step.call, s.calls[step.call]);
    }
  }

  lemma NewRow(steps: seq<Step>, s: Sys, step: Step, id: ExecutionId)
    requires s == Exec(INIT, steps) && AllBehind(steps, s) && Moved(s.rows, Apply(s, step).rows, id)
    ensures RowBehind(steps + [step], id, Apply(s, step).rows[id])
  {
    EveryMoveExplained(s, step, id);
    var after, row := steps + [step], Apply(s, step).rows[id];
    assert after[..|steps|] == steps && after[|steps|] == step;
    if row.state == Signing {
      PassedNow(steps, s, step, id);
    } else if row.state == Expired {
      if HeightIs(s, step, id, false) {
        HeightSeenNow(steps, s, step, id, false);
      } else if !SaysExpired(s, step, id) {
        CallStays(steps, step, step.call, s.calls[step.call]);
      }
      assert KnownDead(after, step.call, id);
    }
  }

  lemma StepBehind(steps: seq<Step>, s: Sys, step: Step)
    requires s == Exec(INIT, steps) && AllBehind(steps, s)
    ensures AllBehind(steps + [step], Apply(s, step))
  {
    var after, t := steps + [step], Apply(s, step);
    forall c | c in t.calls ensures CallBehind(after, c, t.calls[c]) {
      if c in s.calls && t.calls[c] == s.calls[c] {
        CallStays(steps, step, c, s.calls[c]);
      } else {
        StepLeads(s, step, c);
        NewCall(steps, s, step, c);
      }
    }
    OnlyTheseLog(s, step);
    forall i | 0 <= i < |t.log| ensures EventBehind(after, t.log[i]) {
      if i < |s.log| {
        EventStays(steps, step, s.log[i]);
      } else {
        NewEvent(steps, s, step, t.log[i]);
      }
    }
    forall id | id in t.rows ensures RowBehind(after, id, t.rows[id]) {
      if Moved(s.rows, t.rows, id) {
        NewRow(steps, s, step, id);
      } else {
        RowStays(steps, step, id, s.rows[id], t.rows[id]);
      }
    }
  }

  lemma StepLeads(s: Sys, step: Step, c: CallId)
    requires c in Apply(s, step).calls && (c !in s.calls || Apply(s, step).calls[c] != s.calls[c])
    ensures LeadsTo(s, step, c, Apply(s, step).calls[c])
  {
    if step.SubmitHeightAnswered? || step.SubmitReservationAnswered? || step.Submit? {
      SubmitLeads(s, step, c);
    } else if step.Issued? || step.Signed? || step.Landed? || step.Committed? || step.ResultAnswered? {
      SigningLeads(s, step, c);
    } else if step.RecoverSigning? || step.Reconcile? || step.StatusAnswered? || step.ReconcileHeightAnswered? {
      ReconcilingLeads(s, step, c);
    } else {
      OthersOpenNothing(s, step);
    }
  }

  lemma {:induction false} RunBehind(steps: seq<Step>)
    ensures AllBehind(steps, Exec(INIT, steps))
  {
    if steps != [] {
      var front, last := steps[..|steps| - 1], steps[|steps| - 1];
      RunBehind(front);
      assert steps == front + [last];
      OneMore(INIT, front, last);
      StepBehind(front, Exec(INIT, front), last);
    }
  }

  /**
   * Nothing is signed past the fence. Behind every request to the signer, and every approval consumed, in any run
   * with crashes, lies one submission of that execution: on an exact quote that had not expired, answered a height
   * at most the quote's last valid one, with the approval consumed.
   */
  lemma NothingSignedPastTheFence(steps: seq<Step>, i: nat) returns (c: CallId)
    requires i < |Exec(INIT, steps).log|
    requires Exec(INIT, steps).log[i].SignRequested? || Exec(INIT, steps).log[i].ApprovalConsumed?
    ensures var id := Exec(INIT, steps).log[i].id;
      Submitted(steps, id) && HeightSeen(steps, c, id, true) && ApprovalTaken(steps, c)
  {
    RunBehind(steps);
    var e := Exec(INIT, steps).log[i];
    assert EventBehind(steps, e);
    c :| Submitted(steps, e.id) && HeightSeen(steps, c, e.id, true) && ApprovalTaken(steps, c);
  }

  /** An execution is `signing` only past that same fence, and `expired` only when its blockhash is known to be dead. */
  lemma RowsObeyTheFence(steps: seq<Step>, id: ExecutionId)
    requires id in Exec(INIT, steps).rows
    ensures var state := Exec(INIT, steps).rows[id].state;
      && (state == Signing ==> exists c :: HeightSeen(steps, c, id, true) && ApprovalTaken(steps, c))
      && (state == Expired ==> exists c :: KnownDead(steps, c, id))
  {
    RunBehind(steps);
    assert RowBehind(steps, id, Exec(INIT, steps).rows[id]);
  }
}
