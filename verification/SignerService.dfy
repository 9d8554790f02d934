/**
 * The signer as the source writes it (src/signer/index.ts): an object over the replay store, each method the
 * code between two awaits, proved against the steps of `Signer`; and the reconciliation loop.
 */
module SigningService {
  import opened Options
  import opened Basics
  import opened Replay
  import opened Signer
  import opened SignerOutcomes

  /** The step system with one call in flight. */
  function One(table: Table, call: Call): Sys {
    Sys(table, map[0 := call], 1, [])
  }

  function Idle(table: Table): Sys {
    Sys(table, map[], 0, [])
  }

  /** What the step leaves the call suspended on; None once it has returned or thrown. */
  function CallOf(s: Sys): Option<Call> {
    if 0 in s.calls then Some(s.calls[0]) else None
  }

  /** How a reconciliation's queries about one row answer; None where the RPC throws. */
  datatype Answers = Answers(status: Option<TransactionStatus>, height: Option<Option<int>>)

  predicate Listed(row: Row) {
    row.state == Broadcast || row.state == Reconciliation
  }

  /** The signature a listed row is asked about. */
  function Asked(row: Row): Option<string> {
    if row.data.None? then None
    else
      var signature := if row.data.value.signature.Some? then row.data.value.signature else row.data.value.expected;
      if signature == Some("") then None else signature
  }

  /** Whether the queries about a row throw, ending the pass there. */
  predicate Throws(row: Row, a: Answers) {
    Asked(row).Some? &&
    (a.status.None? || (a.status == Some(Unknown) && row.data.value.lastValidBlockHeight.Some? && a.height.None?))
  }

  /** What one pass makes of a listed row whose queries answer. */
  function Reconciled(row: Row, a: Answers): Row
    requires !Throws(row, a)
  {
    if Asked(row).None? then row
    else
      var data := row.data.value;
      var fence := data.lastValidBlockHeight;
      if a.status == Some(Unknown) then
        if fence.Some? && a.height.value.Some? && a.height.value.value > fence.value
        then row.(state := Dropped, version := row.version + 1,
                  data := Some(Payload(None, None, Asked(row), None, fence)))
        else row
      else
        var settled := SettledAs(row.state, a.status.value);
        if settled.None? then row
        else row.(state := settled.value, version := row.version + 1,
                  data := Some(Payload(None, data.transaction, Asked(row), None, fence)))
  }

  /** The height that was asked for lies past the row's fence. */
  predicate SeenPastFence(row: Row, a: Answers) {
    && row.data.Some? && row.data.value.lastValidBlockHeight.Some?
    && a.height.Some? && a.height.value.Some? && a.height.value.value > row.data.value.lastValidBlockHeight.value
  }

  /** What the answers about a listed row leave of it: by its status, or unseen and past its fence dropped. */
  predicate LeftBy(before: Row, a: Answers, after: Row) {
    if Asked(before).None? then after == before
    else
      && a.status.Some?
      && (if a.status.value == Unknown && SeenPastFence(before, a)
          then after.state == Dropped && after.version == before.version + 1
          else ReportedAs(before, after, a.status.value))
      && (after != before ==> after.data.Some? && after.data.value.signature == Asked(before))
  }

  lemma ReconciledIsLeftBy(row: Row, a: Answers)
    requires Listed(row) && !Throws(row, a)
    ensures LeftBy(row, a, Reconciled(row, a))
  {
  }

  class SignerService {
    const replay: SqliteReplayStore

    constructor (replay: SqliteReplayStore)
      ensures this.replay == replay
    {
      this.replay := replay;
    }

    method LookUpStored(id: string, requestHash: string) returns (found: Lookup)
      ensures found == Stored(replay.rows, id, requestHash)
    {
      if requestHash == "" {
        return Refuse("request_hash_invalid");
      }
      if id !in replay.rows {
        return NothingStored;
      }
      var row := replay.rows[id];
      if row.state == Expired {
        return Refuse("authorization_expired");
      }
      if row.data.None? {
        return NothingStored;
      }
      var stored := row.data.value;
      if stored.requestHash.None? || Lower(stored.requestHash.value) != Lower(requestHash) {
        return Refuse("authorization_request_mismatch");
      }
      if row.state != Signed || stored.transaction.None? || stored.transaction.value == "" {
        return Refuse("authorization_in_progress");
      }
      return Prior(SignResult(stored.transaction.value, if stored.signature.Some? then stored.signature.value else ""));
    }

    method Sign(request: Request, policyOk: bool, expiresAt: Option<int>)
      returns (prior: Option<SignResult>, call: Option<Call>)
      modifies replay
      ensures var after := DoStartSign(Idle(old(replay.rows)), request, policyOk, expiresAt);
        && replay.rows == after.table && call == CallOf(after)
        && after.log == if prior.Some? then [Success(request.id, prior.value)] else []
    {
      prior, call := None, None;
      if !policyOk {
        return;
      }
      var found := LookUpStored(request.id, request.hash);
      if found.Refuse? {
        return;
      }
      if found.Prior? {
        return Some(found.found), None;
      }
      var consumed := replay.ConsumeId(request.id, expiresAt);
      if consumed {
        call := Some(AwaitingFence(request));
      }
    }

    method EnvelopeVerified(request: Request, prior: Option<SignResult>, verified: bool, policyOk: bool,
                            expiresAt: Option<int>)
      returns (answer: Option<SignResult>, call: Option<Call>)
      modifies replay
      ensures var after := DoVerifyAnswered(One(old(replay.rows), Verifying(request, prior)), 0, verified, policyOk, expiresAt);
        && replay.rows == after.table
        && call == (if 1 in after.calls then Some(after.calls[1]) else None)
        && after.log == if answer.Some? then [Success(request.id, answer.value)] else []
    {
      answer, call := None, None;
      if !verified || !policyOk {
        return;
      }
      if prior.Some? {
        return prior, None;
      }
      var consumed := replay.ConsumeId(request.id, expiresAt);
      if consumed {
        call := Some(AwaitingFence(request));
      }
    }

    /** True where the blockhash can still land, so that signing may go on. */
    method FenceBlockhash(request: Request, height: Option<int>) returns (passed: bool)
      modifies replay
      ensures var after := DoFenceAnswered(One(old(replay.rows), AwaitingFence(request)), 0, height);
        && replay.rows == after.table
        && CallOf(after) == if passed then Some(AboutToSign(request)) else None
    {
      if request.lastValidBlockHeight.None? || height.None? {
        return true;
      }
      if height.value < 0 {
        return false;
      }
      if height.value <= request.lastValidBlockHeight.value {
        return true;
      }
      var moved := replay.CompareAndSet(request.id, Claimed, Expired,
                                        Some(Payload(None, None, None, None, request.lastValidBlockHeight)));
      return false;
    }

    /** A signature is answered only once it is recorded; `made` is what the call did, in order. */
    method SignClaimed(request: Request, outcome: SignOutcome) returns (answer: Option<SignResult>, ghost made: seq<Event>)
      modifies replay
      ensures var after := DoSignNow(One(old(replay.rows), AboutToSign(request)), 0, outcome);
        && replay.rows == after.table && made == after.log
      ensures if answer.Some? then made == [SignAttempted(request.id, answer), Success(request.id, answer.value)]
              else |made| == 1 && made[0].SignAttempted?
    {
      made := [SignAttempted(request.id, if outcome.Attached? then Some(outcome.result) else None)];
      if outcome.Attached? {
        var result := outcome.result;
        var moved := replay.CompareAndSet(request.id, Claimed, Signed,
          Some(Payload(Some(request.hash), Some(result.transaction), Some(result.signature), None,
                       request.lastValidBlockHeight)));
        if moved {
          made := made + [Success(request.id, result)];
          return Some(result), made;
        }
      }
      var failed := replay.CompareAndSet(request.id, Claimed, Failed, None);
      return None, made;
    }

    /** The durable lookup: the signature to anyone, the raw bytes to the first that asks for them. */
    method Result(id: string, requestHash: string, recoverRaw: bool)
      returns (signature: Option<string>, transaction: Option<string>)
      modifies replay
      ensures var after := DoLookUp(Idle(old(replay.rows)), id, requestHash, recoverRaw);
        && replay.rows == after.table
        && (signature.Some? <==> after.log != [])
        && (signature.Some? ==> after.log[0].Success? && after.log[0].result.signature == signature.value)
        && (transaction.Some? <==> |after.log| == 2)
        && (transaction.Some? ==> after.log[1] == RawReleased(id, SignResult(transaction.value, signature.value)))
    {
      signature, transaction := None, None;
      if id in replay.rows && replay.rows[id].state == Expired {
        return;
      }
      var found := LookUpStored(id, requestHash);
      if !found.Prior? {
        return;
      }
      signature := Some(found.found.signature);
      if recoverRaw {
        var claimed := replay.TakeSigned(id);
        if claimed.Some? {
          transaction := claimed.value.transaction;
        }
      }
    }

    /** After `sendTransaction` answers: only the signature this process computed counts as a broadcast. */
    method BroadcastSigned(id: string, transaction: string, expected: string, fence: Option<int>, returned: Option<string>)
      returns (ok: bool)
      modifies replay
      ensures replay.rows ==
        DoBroadcastAnswered(One(old(replay.rows), AwaitingRpc(id, transaction, expected, fence)), 0, returned).table
      ensures ok <==> returned == Some(expected) && MayTransition(old(replay.rows), id, Signed)
    {
      if returned != Some(expected) {
        ok := replay.CompareAndSet(id, Signed, Reconciliation, Some(Payload(None, None, None, Some(expected), fence)));
        return false;
      }
      ok := replay.CompareAndSet(id, Signed, Broadcast, Some(Payload(None, Some(transaction), returned, None, fence)));
    }

    /** The cluster's word on a signature; true where it has never seen it and there is a fence to compare with. */
    method StatusAnswered(id: string, state: State, data: Payload, signature: string, status: TransactionStatus)
      returns (askHeight: bool)
      modifies replay
      ensures var after := DoStatusAnswered(One(old(replay.rows), AwaitingStatus(id, state, data, signature)), 0, status);
        && replay.rows == after.table
        && askHeight == (status == Unknown && data.lastValidBlockHeight.Some?)
        && CallOf(after) == if askHeight then Some(AwaitingHeight(id, state, data, signature)) else None
      ensures (state == Broadcast || state == Reconciliation) && MayTransition(old(replay.rows), id, state) ==>
        id in replay.rows && ReportedAs(old(replay.rows)[id], replay.rows[id], status)
    {
      if status == Unknown {
        return data.lastValidBlockHeight.Some?;
      }
      var settled := SettledAs(state, status);
      if settled.Some? {
        var moved := replay.CompareAndSet(id, state, settled.value,
          Some(Payload(None, data.transaction, Some(signature), None, data.lastValidBlockHeight)));
      }
      return false;
    }

    method HeightAnswered(id: string, state: State, data: Payload, signature: string, height: Option<int>)
      modifies replay
      ensures replay.rows ==
        DoHeightAnswered(One(old(replay.rows), AwaitingHeight(id, state, data, signature)), 0, height).table
    {
      if height.Some? && data.lastValidBlockHeight.Some? && height.value > data.lastValidBlockHeight.value {
        var moved := replay.CompareAndSet(id, state, Dropped,
          Some(Payload(None, None, Some(signature), None, data.lastValidBlockHeight)));
      }
    }

    /** The loop body of a reconciliation for one listed row. */
    method ReconcileOne(id: string, row: Row, a: Answers) returns (threw: bool)
      requires id in replay.rows && replay.rows[id] == row && Listed(row)
      modifies replay
      ensures threw == Throws(row, a)
      ensures replay.rows == if threw then old(replay.rows) else old(replay.rows)[id := Reconciled(row, a)]
    {
      if row.data.None? {
        return false;
      }
      var data := row.data.value;
      var signature := if data.signature.Some? then data.signature else data.expected;
      if signature.None? || signature.value == "" {
        return false;
      }
      if a.status.None? {
        return true;
      }
      var askHeight := StatusAnswered(id, row.state, data, signature.value, a.status.value);
      if !askHeight {
        return false;
      }
      if a.height.None? {
        return true;
      }
      HeightAnswered(id, row.state, data, signature.value, a.height.value);
      return false;
    }

    /**
     * One uninterrupted pass over the listed rows: the rows before the first throw hold what their answers make
     * of them, and every other row is as it was.
     */
    method ReconcileTransactions(listed: seq<string>, answers: map<string, Answers>) returns (done: nat)
      requires forall i | 0 <= i < |listed| :: listed[i] in replay.rows && Listed(replay.rows[listed[i]]) && listed[i] in answers
      requires forall i, j | 0 <= i < j < |listed| :: listed[i] != listed[j]
      modifies replay
      ensures done <= |listed|
      ensures replay.rows.Keys == old(replay.rows).Keys
      ensures forall id | id in old(replay.rows) && id !in listed[..done] :: replay.rows[id] == old(replay.rows)[id]
      ensures forall i | 0 <= i < done ::
        var row := old(replay.rows)[listed[i]];
        && !Throws(row, answers[listed[i]]) && replay.rows[listed[i]] == Reconciled(row, answers[listed[i]])
        && LeftBy(row, answers[listed[i]], replay.rows[listed[i]])
      ensures done < |listed| ==> Throws(old(replay.rows)[listed[done]], answers[listed[done]])
    {
      for n := 0 to |listed|
        invariant replay.rows.Keys == old(replay.rows).Keys
        invariant forall id | id in old(replay.rows) && id !in listed[..n] :: replay.rows[id] == old(replay.rows)[id]
        invariant forall i | 0 <= i < n ::
          var row := old(replay.rows)[listed[i]];
          && !Throws(row, answers[listed[i]]) && replay.rows[listed[i]] == Reconciled(row, answers[listed[i]])
          && LeftBy(row, answers[listed[i]], replay.rows[listed[i]])
      {
        var id := listed[n];
        assert id !in listed[..n];
        if !Throws(replay.rows[id], answers[id]) {
          ReconciledIsLeftBy(replay.rows[id], answers[id]);
        }
        var threw := ReconcileOne(id, replay.rows[id], answers[id]);
        if threw {
          return n;
        }
        assert listed[..n + 1] == listed[..n] + [id];
      }
      assert listed[..|listed|] == listed;
      done := |listed|;
    }
  }

  /** The pass over a row is the step system's three steps for it. */
  lemma ReconcilingIsStepping(t: Table, id: string, a: Answers)
    requires id in t && Listed(t[id]) && !Throws(t[id], a)
    ensures var asked := Apply(Idle(t), ReconcileRow(id));
      var status := if a.status.Some? then Apply(asked, StatusAnswered(0, a.status.value)) else asked;
      var after := if a.height.Some? then Apply(status, HeightAnswered(0, a.height.value)) else status;
      after.table == t[id := Reconciled(t[id], a)] && after.calls == map[]
  {
    var row := t[id];
    if Asked(row).Some? {
      var asked := Apply(Idle(t), ReconcileRow(id));
      assert asked.calls[0] == AwaitingStatus(id, row.state, row.data.value, Asked(row).value);
    }
  }

  /** A pass never drops a transaction the cluster reports, nor one whose blockhash may still land. */
  lemma DropsOnlyPastTheFence(row: Row, a: Answers)
    requires Listed(row) && !Throws(row, a)
    ensures Reconciled(row, a).state == Dropped <==>
      Asked(row).Some? && a.status == Some(Unknown) && row.data.value.lastValidBlockHeight.Some? &&
      a.height.value.Some? && a.height.value.value > row.data.value.lastValidBlockHeight.value
    ensures Asked(row).Some? ==> Asked(Reconciled(row, a)) == Asked(row)
  {
    if Asked(row).Some? && a.status.value != Unknown {
      assert SettledAs(row.state, a.status.value) != Some(Dropped);
    }
  }
}
