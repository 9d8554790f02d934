/** What every interleaving of the execution lifecycle keeps, and the promises that follow over whole runs. */
module ExecutionTheorems {
  import opened Options
  import opened Executions

  /** The order an execution moves through; the last rank is where nothing moves again. */
  function Phase(state: TradeState): nat {
    match state
    case AwaitingApproval => 0
    case Approved => 1
    case Signing => 2
    case Submitting => 3
    case Denied => 5
    case Expired => 5
    case DryRun => 5
    case _ => 4
  }

  predicate Signable(state: TradeState) {
    state == Approved || state == Signing
  }

  predicate RowOk(quotes: map<QuoteId, Quote>, x: Execution) {
    && (x.signature.Some? <==> 3 <= Phase(x.state) <= 4)
    && x.quoteId in quotes
  }

  /** The signature a call acts on is the one its row holds. */
  predicate Holds(s: Sys, id: ExecutionId, signature: Option<string>) {
    id in s.rows && signature.Some? && s.rows[id].signature == signature
  }

  predicate CallOk(s: Sys, call: Call) {
    match call
    case SubmitHeight(_, from) => Signable(from)
    case SubmitExpiring(_, from) => Signable(from)
    case SubmitReservation(_, from) => Signable(from)
    case SubmitIssuing(id) => ApprovalConsumed(id) in s.log
    case SubmitSigning(_, _) => true
    case SubmitBroadcasting(id, signature) => Holds(s, id, Some(signature))
    case SubmitCommitting(id, signature) => Holds(s, id, Some(signature))
    case RecoverResult(_) => true
    case RecoverBroadcasting(id, signature) => Holds(s, id, Some(signature))
    case RecoverCommitting(id, signature) => Holds(s, id, Some(signature))
    case ReconcileStatus(id, seen) => Holds(s, id, seen.signature) && 3 <= Phase(seen.state) <= 4
    case ReconcileHeight(id, seen) => Holds(s, id, seen.signature) && 3 <= Phase(seen.state) <= 4
    case ReconcileReleasing(id, seen) => Holds(s, id, seen.signature) && 3 <= Phase(seen.state) <= 4
  }

  /** What each logged call must find in the rows, and before it in the log. */
  predicate EventOk(s: Sys, i: nat)
    requires i < |s.log|
  {
    match s.log[i]
    case ApprovalConsumed(id) => true
    case SignRequested(id, transaction) =>
      && id in s.rows && s.rows[id].quoteId in s.quotes
      && transaction == s.quotes[s.rows[id].quoteId].transaction
      && ApprovalConsumed(id) in s.log[..i]
    case SignatureStored(id, signature) => Holds(s, id, Some(signature))
    case BroadcastRequested(id, signature) =>
      Holds(s, id, Some(signature)) && SignatureStored(id, signature) in s.log[..i]
  }

  predicate BroadcastOnce(log: seq<Event>) {
    forall i, j | 0 <= i < j < |log| && log[i].BroadcastRequested? && log[j].BroadcastRequested? :: log[i].id != log[j].id
  }

  predicate StoredOnce(log: seq<Event>) {
    forall i, j | 0 <= i < j < |log| && log[i].SignatureStored? && log[j].SignatureStored? :: log[i].id != log[j].id
  }

  predicate Inv(s: Sys) {
    && (forall id | id in s.rows :: RowOk(s.quotes, s.rows[id]))
    && (forall c | c in s.calls :: c < s.nextCall && CallOk(s, s.calls[c]))
    && (forall i | 0 <= i < |s.log| :: EventOk(s, i))
    && BroadcastOnce(s.log) && StoredOnce(s.log)
  }

  /** How any number of steps may change a row. */
  predicate RowEvolves(a: Execution, b: Execution) {
    || a == b
    || (&& Phase(a.state) <= Phase(b.state) && Phase(a.state) < 5
        && (Phase(a.state) >= 3 ==> Phase(b.state) <= 4)
        && a.version < b.version
        && b.quoteId == a.quoteId && b.idempotencyKey == a.idempotencyKey && b.actor == a.actor
        && b.dryRun == a.dryRun && b.reservationId == a.reservationId && b.approvalId == a.approvalId
        && (a.signature.Some? ==> b.signature == a.signature))
  }

  predicate RowsEvolve(a: Sys, b: Sys) {
    && (forall id | id in a.rows :: id in b.rows && RowEvolves(a.rows[id], b.rows[id]))
    && (forall q | q in a.quotes :: q in b.quotes && b.quotes[q] == a.quotes[q])
  }

  /** The rows and the quotes move on, the log stays: everything already established still holds. */
  predicate Extends(a: Sys, b: Sys) {
    RowsEvolve(a, b) && a.log <= b.log && forall id | id in b.rows :: RowOk(b.quotes, b.rows[id])
  }

  lemma CallFrames(a: Sys, b: Sys, call: Call)
    requires Extends(a, b) && CallOk(a, call)
    ensures CallOk(b, call)
  {
  }

  lemma EventFrames(a: Sys, b: Sys, i: nat)
    requires Extends(a, b) && i < |a.log| && EventOk(a, i)
    ensures EventOk(b, i)
  {
    assert b.log[..i] == a.log[..i];
  }

  /** A step that logs nothing, and whose calls are kept, closed, or replaced by one that is in order. */
  lemma QuietStep(a: Sys, b: Sys)
    requires Inv(a) && Extends(a, b) && b.log == a.log
    requires forall c | c in b.calls :: c < b.nextCall && ((c in a.calls && b.calls[c] == a.calls[c]) || CallOk(b, b.calls[c]))
    ensures Inv(b)
  {
    forall c | c in b.calls ensures CallOk(b, b.calls[c]) {
      if c in a.calls && b.calls[c] == a.calls[c] {
        CallFrames(a, b, a.calls[c]);
      }
    }
    forall i | 0 <= i < |b.log| ensures EventOk(b, i) {
      EventFrames(a, b, i);
    }
  }

  /** The same for a step that logs one event. */
  lemma LoggingStep(a: Sys, b: Sys, e: Event)
    requires Inv(a) && Extends(a, b) && b.log == a.log + [e]
    requires EventOk(b, |a.log|)
    requires e.BroadcastRequested? ==> forall i | 0 <= i < |a.log| && a.log[i].BroadcastRequested? :: a.log[i].id != e.id
    requires e.SignatureStored? ==> forall i | 0 <= i < |a.log| && a.log[i].SignatureStored? :: a.log[i].id != e.id
    requires forall c | c in b.calls :: c < b.nextCall && ((c in a.calls && b.calls[c] == a.calls[c]) || CallOk(b, b.calls[c]))
    ensures Inv(b)
  {
    forall c | c in b.calls ensures CallOk(b, b.calls[c]) {
      if c in a.calls && b.calls[c] == a.calls[c] {
        CallFrames(a, b, a.calls[c]);
      }
    }
    forall i | 0 <= i < |b.log| ensures EventOk(b, i) {
      if i < |a.log| {
        EventFrames(a, b, i);
      }
    }
  }

  lemma NeverStored(s: Sys, id: ExecutionId)
    requires Inv(s) && (id in s.rows ==> s.rows[id].signature.None?)
    ensures forall i | 0 <= i < |s.log| && (s.log[i].SignatureStored? || s.log[i].BroadcastRequested?) :: s.log[i].id != id
  {
    forall i | 0 <= i < |s.log| && (s.log[i].SignatureStored? || s.log[i].BroadcastRequested?)
      ensures s.log[i].id != id
    {
      assert EventOk(s, i);
    }
  }

  // ---- one step ----------------------------------------------------------------------------------

  /** A move to a later phase that neither gives nor takes a signature. */
  predicate PlainMove(from: TradeState, to: TradeState) {
    && Phase(from) <= Phase(to) && Phase(from) < 5
    && (3 <= Phase(from) <==> 3 <= Phase(to) <= 4)
  }

  lemma MoveExtends(s: Sys, id: ExecutionId, from: TradeState, to: TradeState)
    requires Inv(s) && PlainMove(from, to)
    ensures Extends(s, Move(s, id, from, to))
  {
    if MayTransition(s.rows, id, from) {
      var x := s.rows[id];
      assert RowOk(s.quotes, x);
      var y := x.(state := to, version := x.version + 1);
      assert RowEvolves(x, y) && RowOk(s.quotes, y);
      assert Move(s, id, from, to) == s.(rows := s.rows[id := y]);
    } else {
      assert Move(s, id, from, to) == s;
    }
  }

  lemma MoveCloseKeeps(s: Sys, c: CallId, id: ExecutionId, from: TradeState, to: TradeState)
    requires Inv(s) && PlainMove(from, to)
    ensures Inv(Close(Move(s, id, from, to), c)) && Extends(s, Close(Move(s, id, from, to), c))
  {
    MoveExtends(s, id, from, to);
    QuietStep(s, Close(Move(s, id, from, to), c));
  }

  lemma CloseKeeps(s: Sys, c: CallId)
    requires Inv(s)
    ensures Inv(Close(s, c)) && Extends(s, Close(s, c))
  {
    QuietStep(s, Close(s, c));
  }

  lemma AwaitKeeps(s: Sys, c: CallId, call: Call)
    requires Inv(s) && CallOk(s, call) && c < s.nextCall
    ensures Inv(Await(s, c, call)) && Extends(s, Await(s, c, call))
  {
    QuietStep(s, Await(s, c, call));
  }

  lemma OpenKeeps(s: Sys, call: Call)
    requires Inv(s) && CallOk(s, call)
    ensures Inv(Open(s, call)) && Extends(s, Open(s, call))
  {
    QuietStep(s, Open(s, call));
  }

  lemma SubmitFailsKeeps(s: Sys, c: CallId, id: ExecutionId)
    requires Inv(s)
    ensures Inv(SubmitFails(s, c, id)) && Extends(s, SubmitFails(s, c, id))
  {
    MoveCloseKeeps(s, c, id, Submitting, ReconciliationRequired);
  }

  lemma CreateKeeps(s: Sys, id: ExecutionId, q: QuoteId, key: string, actor: string, dry: bool, required: bool,
                    reservation: Option<string>)
    requires Inv(s)
    ensures Inv(DoCreate(s, id, q, key, actor, dry, required, reservation))
    ensures Extends(s, DoCreate(s, id, q, key, actor, dry, required, reservation))
  {
    var t := DoCreate(s, id, q, key, actor, dry, required, reservation);
    assert Extends(s, t);
    QuietStep(s, t);
  }

  lemma IssueKeeps(s: Sys, c: CallId, id: ExecutionId, from: TradeState, a: Consumption)
    requires Inv(s) && c in s.calls && Signable(from)
    ensures Inv(ApproveAndIssue(s, c, id, from, a)) && Extends(s, ApproveAndIssue(s, c, id, from, a))
  {
    if id !in s.rows || s.rows[id].approvalId.None? || a.ConsumeThrows? {
      CloseKeeps(s, c);
    } else {
      var t := Log(s, ApprovalConsumed(id));
      assert t.log[|s.log|] == ApprovalConsumed(id);
      LoggingStep(s, t, ApprovalConsumed(id));
      ConsumedKeeps(t, c, id, from);
    }
  }

  lemma ConsumedKeeps(t: Sys, c: CallId, id: ExecutionId, from: TradeState)
    requires Inv(t) && c in t.calls && ApprovalConsumed(id) in t.log
    ensures Inv(Close(t, c)) && Extends(t, Close(t, c))
    ensures var u := Await(if from == Approved then Move(t, id, Approved, Signing) else t, c, SubmitIssuing(id));
      Inv(u) && Extends(t, u)
  {
    CloseKeeps(t, c);
    if from == Approved {
      MoveKeeps(t, id, Approved, Signing);
      AwaitKeeps(Move(t, id, Approved, Signing), c, SubmitIssuing(id));
    } else {
      AwaitKeeps(t, c, SubmitIssuing(id));
    }
  }

  lemma HeightKeeps(s: Sys, c: CallId, h: int, ledger: bool, a: Consumption)
    requires Inv(s) && c in s.calls && s.calls[c].SubmitHeight?
    ensures Inv(DoSubmitHeight(s, c, h, ledger, a)) && Extends(s, DoSubmitHeight(s, c, h, ledger, a))
  {
    var call := s.calls[c];
    assert CallOk(s, call);
    if call.id !in s.rows {
      CloseKeeps(s, c);
    } else {
      assert RowOk(s.quotes, s.rows[call.id]);
      if h > s.quotes[s.rows[call.id].quoteId].lastValidBlockHeight {
        AwaitKeeps(s, c, SubmitExpiring(call.id, call.from));
        MoveCloseKeeps(s, c, call.id, call.from, Expired);
      } else {
        AwaitKeeps(s, c, SubmitReservation(call.id, call.from));
        IssueKeeps(s, c, call.id, call.from, a);
      }
    }
  }

  lemma IssuedKeeps(s: Sys, c: CallId, authorization: string)
    requires Inv(s) && c in s.calls && s.calls[c].SubmitIssuing?
    ensures Inv(DoIssued(s, c, authorization)) && Extends(s, DoIssued(s, c, authorization))
  {
    var id := s.calls[c].id;
    assert CallOk(s, s.calls[c]);
    if !MayTransition(s.rows, id, Signing) {
      SubmitFailsKeeps(s, c, id);
    } else {
      assert RowOk(s.quotes, s.rows[id]);
      var t := s.(rows := Transition(s.rows, id, Signing, s.rows[id].(authorizationId := Some(authorization))));
      QuietStep(s, t);
      var e := SignRequested(id, s.quotes[s.rows[id].quoteId].transaction);
      var u := Log(t, e);
      assert u.log[..|t.log|] == t.log;
      LoggingStep(t, u, e);
      AwaitKeeps(u, c, SubmitSigning(id, authorization));
    }
  }

  /** Storing a first signature over a row in `signing`. */
  lemma StoreKeeps(s: Sys, id: ExecutionId, x: Execution, signature: string)
    requires Inv(s) && MayTransition(s.rows, id, Signing) && s.rows[id].quoteId in s.quotes
    requires x == WithSignature(s.rows[id], s.quotes[s.rows[id].quoteId], signature).(authorizationId := x.authorizationId)
    ensures var t := Log(s.(rows := Transition(s.rows, id, Signing, x)), SignatureStored(id, signature));
      && Inv(t) && Extends(s, t) && Holds(t, id, Some(signature))
      && SignatureStored(id, signature) in t.log
      && forall i | 0 <= i < |t.log| && t.log[i].BroadcastRequested? :: t.log[i].id != id
  {
    assert RowOk(s.quotes, s.rows[id]);
    NeverStored(s, id);
    var m := s.(rows := Transition(s.rows, id, Signing, x));
    var t := Log(m, SignatureStored(id, signature));
    assert Extends(s, t);
    assert t.log[|s.log|] == SignatureStored(id, signature);
    LoggingStep(s, t, SignatureStored(id, signature));
  }

  lemma RequestBroadcastKeeps(s: Sys, id: ExecutionId, signature: string)
    requires Inv(s) && Holds(s, id, Some(signature)) && SignatureStored(id, signature) in s.log
    requires forall i | 0 <= i < |s.log| && s.log[i].BroadcastRequested? :: s.log[i].id != id
    ensures Inv(Log(s, BroadcastRequested(id, signature))) && Extends(s, Log(s, BroadcastRequested(id, signature)))
  {
    var t := Log(s, BroadcastRequested(id, signature));
    assert t.log[..|s.log|] == s.log;
    LoggingStep(s, t, BroadcastRequested(id, signature));
  }

  lemma EvolveTransitive(a: Sys, b: Sys, c: Sys)
    requires RowsEvolve(a, b) && RowsEvolve(b, c)
    ensures RowsEvolve(a, c)
  {
  }

  lemma SignedKeeps(s: Sys, c: CallId, reply: SignedReply)
    requires Inv(s) && c in s.calls && s.calls[c].SubmitSigning?
    ensures Inv(DoSigned(s, c, reply)) && RowsEvolve(s, DoSigned(s, c, reply))
  {
    var call := s.calls[c];
    if MayTransition(s.rows, call.id, Signing) && s.rows[call.id].quoteId in s.quotes {
      var x := WithSignature(s.rows[call.id], s.quotes[s.rows[call.id].quoteId], reply.signature)
                 .(authorizationId := Some(call.authorization));
      StoreKeeps(s, call.id, x, reply.signature);
      var t := Log(s.(rows := Transition(s.rows, call.id, Signing, x)), SignatureStored(call.id, reply.signature));
      var after := DoSigned(s, c, reply);
      StoredGoesOn(t, c, call.id, reply, after);
      EvolveTransitive(s, t, after);
    } else {
      SubmitFailsKeeps(s, c, call.id);
    }
  }

  /** What follows a stored signature: the broadcast, the ledger commit, or a row left to reconciliation. */
  lemma StoredGoesOn(t: Sys, c: CallId, id: ExecutionId, reply: SignedReply, after: Sys)
    requires Inv(t) && c in t.calls && Holds(t, id, Some(reply.signature)) && SignatureStored(id, reply.signature) in t.log
    requires forall i | 0 <= i < |t.log| && t.log[i].BroadcastRequested? :: t.log[i].id != id
    requires after == if reply.sent.None?
      then Await(Log(t, BroadcastRequested(id, reply.signature)), c, SubmitBroadcasting(id, reply.signature))
      else if reply.sent.value != reply.signature then SubmitFails(t, c, id)
      else Await(t, c, SubmitCommitting(id, reply.signature))
    ensures Inv(after) && RowsEvolve(t, after)
  {
    if reply.sent.None? {
      RequestBroadcastKeeps(t, id, reply.signature);
      AwaitKeeps(Log(t, BroadcastRequested(id, reply.signature)), c, SubmitBroadcasting(id, reply.signature));
    } else if reply.sent.value != reply.signature {
      SubmitFailsKeeps(t, c, id);
    } else {
      AwaitKeeps(t, c, SubmitCommitting(id, reply.signature));
    }
  }

  lemma ResultKeeps(s: Sys, c: CallId, result: ResultReply)
    requires Inv(s) && c in s.calls && s.calls[c].RecoverResult?
    ensures Inv(DoResult(s, c, result)) && RowsEvolve(s, DoResult(s, c, result))
  {
    var id := s.calls[c].id;
    CloseKeeps(s, c);
    match result
    case ResultUnavailable =>
    case ResultExpired =>
      AwaitKeeps(s, c, SubmitExpiring(id, Signing));
      MoveCloseKeeps(s, c, id, Signing, Expired);
    case ResultSigned(signature) =>
      if MayTransition(s.rows, id, Signing) && s.rows[id].quoteId in s.quotes {
        var x := WithSignature(s.rows[id], s.quotes[s.rows[id].quoteId], signature);
        StoreKeeps(s, id, x, signature);
        var t := Log(s.(rows := Transition(s.rows, id, Signing, x)), SignatureStored(id, signature));
        RequestBroadcastKeeps(t, id, signature);
        var u := Log(t, BroadcastRequested(id, signature));
        AwaitKeeps(u, c, RecoverBroadcasting(id, signature));
        EvolveTransitive(s, t, u);
        EvolveTransitive(s, u, DoResult(s, c, result));
      }
  }

  lemma LandedKeeps(s: Sys, c: CallId, signature: string)
    requires Inv(s) && c in s.calls && (s.calls[c].SubmitBroadcasting? || s.calls[c].RecoverBroadcasting?)
    ensures Inv(DoLanded(s, c, signature)) && Extends(s, DoLanded(s, c, signature))
  {
    var call := s.calls[c];
    assert CallOk(s, call);
    SubmitFailsKeeps(s, c, call.id);
    AwaitKeeps(s, c, SubmitCommitting(call.id, call.signature));
    AwaitKeeps(s, c, RecoverCommitting(call.id, call.signature));
  }

  lemma CommittedKeeps(s: Sys, c: CallId)
    requires Inv(s) && c in s.calls && (s.calls[c].SubmitCommitting? || s.calls[c].RecoverCommitting?)
    ensures Inv(DoCommitted(s, c)) && Extends(s, DoCommitted(s, c))
  {
    var call := s.calls[c];
    assert CallOk(s, call);
    var t := DoCommitted(s, c);
    assert Extends(s, t);
    QuietStep(s, t);
  }

  lemma UnseenKeeps(s: Sys, c: CallId, id: ExecutionId, seen: Execution)
    requires Inv(s) && 3 <= Phase(seen.state) <= 4
    ensures Inv(Unseen(s, c, id, seen)) && Extends(s, Unseen(s, c, id, seen))
  {
    CloseKeeps(s, c);
    MoveCloseKeeps(s, c, id, seen.state, ReconciliationRequired);
  }

  lemma ObserveKeeps(s: Sys, c: CallId, id: ExecutionId, seen: Execution, state: TradeState)
    requires Inv(s) && Holds(s, id, seen.signature) && 3 <= Phase(seen.state) <= 4 && Phase(state) == 4
    ensures Inv(Observe(s, c, id, seen, state)) && Extends(s, Observe(s, c, id, seen, state))
  {
    assert Extends(s, Observe(s, c, id, seen, state));
    QuietStep(s, Observe(s, c, id, seen, state));
  }

  lemma StatusKeeps(s: Sys, c: CallId, status: Option<ChainStatus>, f: bool)
    requires Inv(s) && c in s.calls && s.calls[c].ReconcileStatus?
    ensures Inv(DoStatus(s, c, status, f)) && Extends(s, DoStatus(s, c, status, f))
  {
    var call := s.calls[c];
    assert CallOk(s, call);
    if status.None? {
      UnseenKeeps(s, c, call.id, call.seen);
      AwaitKeeps(s, c, ReconcileHeight(call.id, call.seen));
    } else {
      var state := if status.value.StatusError? then Failed
                   else if status.value.StatusFinalized? || (f && status.value.StatusConfirmed?)
                   then Finalized else Confirmed;
      ObserveKeeps(s, c, call.id, call.seen, state);
    }
  }

  lemma ReconcileHeightKeeps(s: Sys, c: CallId, h: int)
    requires Inv(s) && c in s.calls && s.calls[c].ReconcileHeight?
    ensures Inv(DoReconcileHeight(s, c, h)) && Extends(s, DoReconcileHeight(s, c, h))
  {
    var call := s.calls[c];
    assert CallOk(s, call);
    if !(call.seen.lastValidBlockHeight.Some? && h > call.seen.lastValidBlockHeight.value) {
      UnseenKeeps(s, c, call.id, call.seen);
    } else if call.seen.reservationId.Some? {
      AwaitKeeps(s, c, ReconcileReleasing(call.id, call.seen));
    } else {
      MoveCloseKeeps(s, c, call.id, call.seen.state, Dropped);
    }
  }

  lemma MoveKeeps(s: Sys, id: ExecutionId, from: TradeState, to: TradeState)
    requires Inv(s) && PlainMove(from, to)
    ensures Inv(Move(s, id, from, to)) && Extends(s, Move(s, id, from, to))
  {
    MoveExtends(s, id, from, to);
    QuietStep(s, Move(s, id, from, to));
  }

  lemma RejectsKeeps(s: Sys, c: CallId)
    requires Inv(s) && c in s.calls
    ensures Inv(DoRejects(s, c)) && Extends(s, DoRejects(s, c))
  {
    CloseKeeps(s, c);
    SubmitFailsKeeps(s, c, s.calls[c].id);
  }

  lemma ReservationKeeps(s: Sys, c: CallId, valid: bool, a: Consumption)
    requires Inv(s) && c in s.calls && s.calls[c].SubmitReservation?
    ensures var t := if valid then ApproveAndIssue(s, c, s.calls[c].id, s.calls[c].from, a) else Close(s, c);
      Inv(t) && Extends(s, t)
  {
    assert CallOk(s, s.calls[c]);
    CloseKeeps(s, c);
    IssueKeeps(s, c, s.calls[c].id, s.calls[c].from, a);
  }

  lemma ReleasedKeeps(s: Sys, c: CallId)
    requires Inv(s) && c in s.calls
    ensures s.calls[c].SubmitExpiring? ==>
      var t := Close(Move(s, s.calls[c].id, s.calls[c].from, Expired), c); Inv(t) && Extends(s, t)
    ensures s.calls[c].ReconcileReleasing? ==>
      var t := Close(Move(s, s.calls[c].id, s.calls[c].seen.state, Dropped), c); Inv(t) && Extends(s, t)
  {
    var call := s.calls[c];
    assert CallOk(s, call);
    if call.SubmitExpiring? {
      MoveCloseKeeps(s, c, call.id, call.from, Expired);
    } else if call.ReconcileReleasing? {
      MoveCloseKeeps(s, c, call.id, call.seen.state, Dropped);
    }
  }

  lemma StartKeeps(s: Sys, step: Step)
    requires Inv(s) && (step.Submit? || step.RecoverSigning? || step.Reconcile?)
    ensures Inv(Apply(s, step)) && RowsEvolve(s, Apply(s, step))
  {
    var t := Apply(s, step);
    if t != s {
      var call := t.calls[s.nextCall];
      assert CallOk(s, call) by {
        assert RowOk(s.quotes, s.rows[call.id]);
      }
      OpenKeeps(s, call);
    }
  }

  lemma FrameStepKeeps(s: Sys, step: Step)
    requires Inv(s) && (step.PutQuote? || step.Crash?)
    ensures Inv(Apply(s, step)) && RowsEvolve(s, Apply(s, step))
  {
    QuietStep(s, Apply(s, step));
  }

  lemma RowStepKeeps(s: Sys, step: Step)
    requires Inv(s) && (step.Create? || step.Refresh? || step.Recover? || step.Rejects?)
    ensures Inv(Apply(s, step)) && RowsEvolve(s, Apply(s, step))
  {
    match step
    case Create(id, q, key, actor, dry, required, r) => CreateKeeps(s, id, q, key, actor, dry, required, r);
    case Refresh(id, approval) =>
      if approval.DeniedStatus? {
        MoveKeeps(s, id, AwaitingApproval, Denied);
      } else {
        MoveKeeps(s, id, AwaitingApproval, Approved);
      }
    case Recover(id) => MoveKeeps(s, id, Submitting, ReconciliationRequired);
    case Rejects(c) => if c in s.calls { RejectsKeeps(s, c); }
  }

  lemma ReconcileStepKeeps(s: Sys, step: Step)
    requires Inv(s) && (step.StatusAnswered? || step.ReconcileHeightAnswered? || step.ReconcileReleased? || step.SubmitReleased?)
    ensures Inv(Apply(s, step)) && RowsEvolve(s, Apply(s, step))
  {
    if step.call in s.calls {
      match step
      case StatusAnswered(c, st, f) => if s.calls[c].ReconcileStatus? { StatusKeeps(s, c, st, f); }
      case ReconcileHeightAnswered(c, h) => if s.calls[c].ReconcileHeight? { ReconcileHeightKeeps(s, c, h); }
      case ReconcileReleased(c) => ReleasedKeeps(s, c);
      case SubmitReleased(c) => ReleasedKeeps(s, c);
    }
  }

  lemma SubmitStepKeeps(s: Sys, step: Step)
    requires Inv(s) && (step.SubmitHeightAnswered? || step.SubmitReservationAnswered? || step.Issued? || step.Signed?)
    ensures Inv(Apply(s, step)) && RowsEvolve(s, Apply(s, step))
  {
    if step.call in s.calls {
      match step
      case SubmitHeightAnswered(c, h, l, a) => if s.calls[c].SubmitHeight? { HeightKeeps(s, c, h, l, a); }
      case SubmitReservationAnswered(c, valid, a) => if s.calls[c].SubmitReservation? { ReservationKeeps(s, c, valid, a); }
      case Issued(c, auth) => if s.calls[c].SubmitIssuing? { IssuedKeeps(s, c, auth); }
      case Signed(c, reply) => if s.calls[c].SubmitSigning? { SignedKeeps(s, c, reply); }
    }
  }

  lemma LandStepKeeps(s: Sys, step: Step)
    requires Inv(s) && (step.Landed? || step.Committed? || step.ResultAnswered?)
    ensures Inv(Apply(s, step)) && RowsEvolve(s, Apply(s, step))
  {
    if step.call in s.calls {
      match step
      case Landed(c, sig) => if s.calls[c].SubmitBroadcasting? || s.calls[c].RecoverBroadcasting? { LandedKeeps(s, c, sig); }
      case Committed(c) => if s.calls[c].SubmitCommitting? || s.calls[c].RecoverCommitting? { CommittedKeeps(s, c); }
      case ResultAnswered(c, r) => if s.calls[c].RecoverResult? { ResultKeeps(s, c, r); }
    }
  }

  lemma StepKeeps(s: Sys, step: Step)
    requires Inv(s)
    ensures Inv(Apply(s, step)) && RowsEvolve(s, Apply(s, step))
  {
    if step.Submit? || step.RecoverSigning? || step.Reconcile? {
      StartKeeps(s, step);
    } else if step.PutQuote? || step.Crash? {
      FrameStepKeeps(s, step);
    } else if step.Create? || step.Refresh? || step.Recover? || step.Rejects? {
      RowStepKeeps(s, step);
    } else if step.Landed? || step.Committed? || step.ResultAnswered? {
      LandStepKeeps(s, step);
    } else if step.SubmitHeightAnswered? || step.SubmitReservationAnswered? || step.Issued? || step.Signed? {
      SubmitStepKeeps(s, step);
    } else {
      ReconcileStepKeeps(s, step);
    }
  }

  lemma {:induction false} RunKeeps(s: Sys, steps: seq<Step>)
    requires Inv(s)
    ensures Inv(Exec(s, steps)) && RowsEvolve(s, Exec(s, steps))
    decreases |steps|
  {
    if steps != [] {
      StepKeeps(s, steps[0]);
      RunKeeps(Apply(s, steps[0]), steps[1..]);
      EvolveTransitive(s, Apply(s, steps[0]), Exec(s, steps));
    }
  }

  // ---- the promises ------------------------------------------------------------------------------

  /**
   * Phase monotonicity. Between any two points of any run an execution's phase never falls, its stored
   * signature, its quote and its approval never change, and a denied, expired or dry-run row is never written
   * again.
   */
  lemma PhasesNeverFall(before: seq<Step>, steps: seq<Step>, id: ExecutionId)
    requires id in Exec(INIT, before).rows
    ensures var s := Exec(INIT, before); var t := Exec(s, steps);
      && id in t.rows
      && Phase(s.rows[id].state) <= Phase(t.rows[id].state)
      && (s.rows[id].signature.Some? ==> t.rows[id].signature == s.rows[id].signature)
      && t.rows[id].quoteId == s.rows[id].quoteId && t.rows[id].approvalId == s.rows[id].approvalId
      && (s.rows[id].state in {Denied, Expired, DryRun} ==> t.rows[id] == s.rows[id])
  {
    RunKeeps(INIT, before);
    RunKeeps(Exec(INIT, before), steps);
  }

  /**
   * The host broadcasts an execution at most once, and only the signature it had already stored on the row,
   * which the row holds from then on.
   */
  lemma BroadcastAtMostOnce(steps: seq<Step>, i: nat, j: nat)
    requires i < |Exec(INIT, steps).log| && j < |Exec(INIT, steps).log|
    requires Exec(INIT, steps).log[i].BroadcastRequested?
    ensures var s := Exec(INIT, steps);
      && (s.log[j].BroadcastRequested? && s.log[j].id == s.log[i].id ==> i == j)
      && (exists k | 0 <= k < i :: s.log[k] == SignatureStored(s.log[i].id, s.log[i].signature))
      && s.log[i].id in s.rows && s.rows[s.log[i].id].signature == Some(s.log[i].signature)
  {
    RunKeeps(INIT, steps);
    var s := Exec(INIT, steps);
    assert EventOk(s, i);
    var k :| 0 <= k < i && s.log[..i][k] == SignatureStored(s.log[i].id, s.log[i].signature);
    assert s.log[k] == SignatureStored(s.log[i].id, s.log[i].signature);
  }

  /**
   * Every signing request of an execution carries the very bytes of the quote it was created from, so all of
   * them carry the same bytes, and each comes after the approval was consumed.
   */
  lemma SignRequestsAreQuoted(steps: seq<Step>, i: nat)
    requires i < |Exec(INIT, steps).log| && Exec(INIT, steps).log[i].SignRequested?
    ensures var s := Exec(INIT, steps); var id := s.log[i].id;
      && id in s.rows && s.rows[id].quoteId in s.quotes
      && s.log[i].transaction == s.quotes[s.rows[id].quoteId].transaction
      && exists k | 0 <= k < i :: s.log[k] == ApprovalConsumed(id)
  {
    RunKeeps(INIT, steps);
    var s := Exec(INIT, steps);
    assert EventOk(s, i);
    var k :| 0 <= k < i && s.log[..i][k] == ApprovalConsumed(s.log[i].id);
    assert s.log[k] == ApprovalConsumed(s.log[i].id);
  }
}
