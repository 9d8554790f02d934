/** What the custody boundary promises about one authorization id, over every run of the signer. */
module SignerTheorems {
  import opened Options
  import opened Replay
  import opened Signer
  import opened SignerInvariants

  /**
   * `signMessage` runs at most once per authorization id, whether it returns or throws, and never for an id whose
   * row is `expired` or still `claimed`.
   */
  lemma SignedAtMostOnce(steps: seq<Step>, i: nat, j: nat)
    requires i < |Exec(INIT, steps).log| && j < |Exec(INIT, steps).log|
    requires Exec(INIT, steps).log[i].SignAttempted?
    ensures var s := Exec(INIT, steps); var id := s.log[i].id;
      && (s.log[j].SignAttempted? && s.log[j].id == id ==> i == j)
      && id in s.table && !s.table[id].state.Expired? && !s.table[id].state.Claimed?
  {
    Reachable(steps);
    var s := Exec(INIT, steps);
    assert RowOk(s.log, s.log[i].id, s.table[s.log[i].id]);
  }

  /** Exactly one attempt, and one that made a signature, is behind every row that says a signature exists. */
  lemma SignedExactlyOnce(steps: seq<Step>, id: string) returns (k: nat)
    requires id in Exec(INIT, steps).table && AfterSignature(Exec(INIT, steps).table[id].state)
    ensures var log := Exec(INIT, steps).log;
      && k < |log| && log[k].SignAttempted? && log[k].id == id && log[k].made.Some?
      && forall j | 0 <= j < |log| && log[j].SignAttempted? && log[j].id == id :: j == k
  {
    Reachable(steps);
    var s := Exec(INIT, steps);
    assert RowOk(s.log, id, s.table[id]);
    k :| 0 <= k < |s.log| && s.log[k].SignAttempted? && s.log[k].id == id && s.log[k].made.Some?;
  }

  /** Every success for an id, from `sign`, `signEnvelope` or `result`, hands out the same bytes and signature. */
  lemma SuccessesAgree(steps: seq<Step>, i: nat, j: nat)
    requires i < |Exec(INIT, steps).log| && j < |Exec(INIT, steps).log|
    requires !Exec(INIT, steps).log[i].SignAttempted? && !Exec(INIT, steps).log[j].SignAttempted?
    requires Exec(INIT, steps).log[i].id == Exec(INIT, steps).log[j].id
    ensures Exec(INIT, steps).log[i].result == Exec(INIT, steps).log[j].result
  {
    Reachable(steps);
    var log := Exec(INIT, steps).log;
    var a :| 0 <= a < |log| && log[a] == SignAttempted(log[i].id, Some(log[i].result));
    var b :| 0 <= b < |log| && log[b] == SignAttempted(log[j].id, Some(log[j].result));
    assert a == b;
  }

  /** At most one `result` caller ever receives the raw bytes of an id. */
  lemma RawBytesReleasedOnce(steps: seq<Step>, i: nat, j: nat)
    requires i < |Exec(INIT, steps).log| && j < |Exec(INIT, steps).log|
    requires Exec(INIT, steps).log[i].RawReleased? && Exec(INIT, steps).log[j].RawReleased?
    requires Exec(INIT, steps).log[i].id == Exec(INIT, steps).log[j].id
    ensures i == j
  {
    Reachable(steps);
  }

  /**
   * Every change of a row climbs a rank of at most nine, so a row is written at most ten times in its life,
   * whatever is retried and reconciled.
   */
  lemma ChangesClimb(steps: seq<Step>, step: Step, id: string)
    requires id in Exec(INIT, steps).table
    ensures var a, b := Exec(INIT, steps).table, Apply(Exec(INIT, steps), step).table;
      && id in b && (b[id] == a[id] || Rank(a[id]) < Rank(b[id]) <= 9)
      && b[id].version <= 10
  {
    Reachable(steps);
    var s := Exec(INIT, steps);
    StepKeeps(s, step);
    var t := Apply(s, step);
    assert id in t.table && RowOk(t.log, id, t.table[id]);
  }

  /** A request the verifier or the policy refuses burns nothing: the store is as it was. */
  lemma RefusalLeavesStore(s: Sys, step: Step)
    requires || (step.StartSign? && !step.policyOk)
             || (step.VerifyAnswered? && (!step.verified || !step.policyOk))
             || step.StartEnvelope?
    ensures Apply(s, step).table == s.table && Apply(s, step).log == s.log
  {
  }

  /** Expired, failed, confirmed, reverted and dropped authorizations are final: nothing signs or revives them. */
  lemma TerminalIsFinal(before: seq<Step>, steps: seq<Step>, id: string)
    requires id in Exec(INIT, before).table && Terminal(Exec(INIT, before).table[id].state)
    ensures id in Exec(Exec(INIT, before), steps).table
    ensures Exec(Exec(INIT, before), steps).table[id] == Exec(INIT, before).table[id]
  {
    Reachable(before);
    FinalFrom(Exec(INIT, before), steps, id);
  }

  lemma {:induction false} FinalFrom(s: Sys, steps: seq<Step>, id: string)
    requires Inv(s) && id in s.table && Terminal(s.table[id].state)
    ensures id in Exec(s, steps).table && Exec(s, steps).table[id] == s.table[id]
    decreases |steps|
  {
    if steps != [] {
      StepKeeps(s, steps[0]);
      FinalFrom(Apply(s, steps[0]), steps[1..], id);
    }
  }
}
