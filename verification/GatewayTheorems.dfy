/** The promises of the money path, over every run from an empty store. */
module GatewayTheorems {
  import opened Options
  import opened Store
  import opened Gateway
  import opened GatewayInvariants

  lemma InitInv()
    ensures Inv(INIT)
  {
  }

  lemma {:induction false} ExecAppend(s: Sys, a: seq<Step>, b: seq<Step>)
    ensures Exec(s, a + b) == Exec(Exec(s, a), b)
    ensures BootRecovery(s, a + b) <==> BootRecovery(s, a) && BootRecovery(Exec(s, a), b)
    decreases |a|
  {
    if a == [] {
      assert a + b == b;
    } else {
      assert (a + b)[1..] == a[1..] + b;
      ExecAppend(Apply(s, a[0]), a[1..], b);
    }
  }

  /**
   * Lifecycle. At every point of every run with boot-time recovery, `confirmed` is the consumed
   * reservation, `expired` and `errored` the released one, anything else a held one, and no spend is
   * consumed without its confirmed trade; and the next step moves a row only along the lifecycle, never
   * touching a terminal one.
   */
  lemma Lifecycle(steps: seq<Step>, step: Step)
    requires BootRecovery(INIT, steps + [step])
    ensures var db := Exec(INIT, steps).db;
      && (forall id | id in db.trades && db.trades[id].reservationId.Some? ::
            var r := db.trades[id].reservationId.value;
            && r < |db.spends| && db.spends[r].tradeId == id
            && (db.trades[id].state == Confirmed <==> db.spends[r].state == Consumed)
            && (db.trades[id].state in {Expired, Errored} <==> db.spends[r].state == Released)
            && (db.trades[id].state in {Reserved, Sent} <==> db.spends[r].state == Held))
      && (forall r | 0 <= r < |db.spends| && db.spends[r].state == Consumed ::
            var id := db.spends[r].tradeId;
            id in db.trades && db.trades[id].state == Confirmed && db.trades[id].reservationId == Some(r))
    ensures RowsEvolve(Exec(INIT, steps).db, Exec(INIT, steps + [step]).db)
  {
    ExecAppend(INIT, steps, [step]);
    InitInv();
    RunKeeps(INIT, steps);
    var s := Exec(INIT, steps);
    assert Exec(s, [step]) == Apply(s, step) by {
      assert [step][1..] == [];
    }
    StepKeeps(s, step);
    forall id | id in s.db.trades ensures RowAgrees(s.db, id) {
    }
    forall r | 0 <= r < |s.db.spends| ensures Backed(s.db, r) {
    }
  }

  /**
   * At most once. However requests are retried, interleaved, crashed and recovered, the log holds at most one
   * signing and one broadcast per idempotency key, and every broadcast comes after the very bytes it sends
   * were written to the row of that key, which holds them from then on.
   */
  lemma AtMostOnce(steps: seq<Step>, i: nat, j: nat)
    requires BootRecovery(INIT, steps)
    requires i < |Exec(INIT, steps).log| && j < |Exec(INIT, steps).log|
    ensures var s := Exec(INIT, steps);
      && (s.log[i].SignRequested? && s.log[j].SignRequested? && s.log[i].key == s.log[j].key ==> i == j)
      && (s.log[i].BroadcastRequested? && s.log[j].BroadcastRequested? && s.log[i].key == s.log[j].key ==> i == j)
      && (s.log[i].BroadcastRequested? ==>
            && RowHolds(s.db, s.log[i].key, s.log[i].wire)
            && exists k | 0 <= k < i :: s.log[k] == WirePersisted(s.log[i].key, s.log[i].wire))
  {
    InitInv();
    RunKeeps(INIT, steps);
    var s := Exec(INIT, steps);
    if s.log[i].BroadcastRequested? {
      assert WirePersisted(s.log[i].key, s.log[i].wire) in s.log[..i];
      var k :| 0 <= k < i && s.log[..i][k] == WirePersisted(s.log[i].key, s.log[i].wire);
      assert s.log[k] == WirePersisted(s.log[i].key, s.log[i].wire);
    }
  }

  /** `during` neither crashes nor loses the confirmer, so a recovery under way is not abandoned. */
  predicate Undisturbed(during: seq<Step>) {
    forall i | 0 <= i < |during| :: !during[i].Crash? && during[i] != RecoveryAnswered(ConfirmerRejects)
  }

  lemma {:induction false} SweepLasts(s: Sys, during: seq<Step>)
    requires s.swept && Undisturbed(during)
    ensures Exec(s, during).swept
    decreases |during|
  {
    if during != [] {
      SweepLasts(Apply(s, during[0]), during[1..]);
    }
  }

  /**
   * A completed recovery. Once the work list read at boot is exhausted, whatever executed meanwhile, no row
   * is left in `sent` except under an execution of the present process that will still settle it.
   */
  lemma RecoveryCompletes(before: seq<Step>, order: seq<TradeId>, during: seq<Step>)
    requires BootRecovery(INIT, before + ([StartRecovery(order)] + during))
    requires Exec(INIT, before).recovering == [] && ListsSent(Exec(INIT, before).db, order)
    requires Undisturbed(during)
    requires Exec(INIT, before + ([StartRecovery(order)] + during)).recovering == []
    ensures var s := Exec(INIT, before + ([StartRecovery(order)] + during));
      forall id | id in s.db.trades && s.db.trades[id].state == Sent :: id in s.runs
  {
    ExecAppend(INIT, before, [StartRecovery(order)] + during);
    InitInv();
    RunKeeps(INIT, before + ([StartRecovery(order)] + during));
    var s := Exec(INIT, before);
    assert ([StartRecovery(order)] + during)[1..] == during;
    SweepLasts(Apply(s, StartRecovery(order)), during);
  }

  // ---- why recovery belongs at boot --------------------------------------------------------------

  /** Starting `recover()` here can never let a later step disturb a finished trade. */
  ghost predicate SafeToRecover(s: Sys) {
    forall order, first, second | ListsSent(s.db, order) ::
      FinalAfter(Apply(s, StartRecovery(order)), first, second)
  }

  ghost predicate FinalAfter(t: Sys, first: seq<Step>, second: seq<Step>) {
    BootRecovery(t, first + second) ==> RowsReach(Exec(t, first).db, Exec(Exec(t, first), second).db)
  }

  lemma QuietIsSafe(s: Sys)
    requires Inv(s) && Quiet(s)
    ensures SafeToRecover(s)
  {
    forall order, first, second | ListsSent(s.db, order)
      ensures FinalAfter(Apply(s, StartRecovery(order)), first, second)
    {
      var t := Apply(s, StartRecovery(order));
      StartRecoveryKeeps(s, order);
      if BootRecovery(t, first + second) {
        ExecAppend(t, first, second);
        RunKeeps(t, first);
        RunKeeps(Exec(t, first), second);
      }
    }
  }

  /** The database can return the sent rows with any one of them first. */
  lemma {:induction false} OrderExists(db: Db, ids: set<TradeId>) returns (order: seq<TradeId>)
    ensures forall i, j | 0 <= i < j < |order| :: order[i] != order[j]
    ensures forall id :: id in order <==> id in ids
    decreases |ids|
  {
    order := [];
    if ids != {} {
      var id :| id in ids;
      var rest := OrderExists(db, ids - {id});
      order := [id] + rest;
    }
  }

  lemma OrderFrom(db: Db, id: TradeId) returns (order: seq<TradeId>)
    requires id in db.trades && db.trades[id].state == Sent
    ensures ListsSent(db, order) && order != [] && order[0] == id
  {
    var sent := set j | j in db.trades && db.trades[j].state == Sent;
    var rest := OrderExists(db, sent - {id});
    order := [id] + rest;
    forall j | j in db.trades && db.trades[j].state == Sent ensures j in order {
      if j != id {
        assert j in rest;
      }
    }
    forall i | 0 <= i < |order| ensures order[i] in db.trades && db.trades[order[i]].state == Sent {
      if i > 0 {
        assert order[i] in rest;
      }
    }
  }

  /** Two steps taken one after the other. */
  lemma ExecTwo(s: Sys, a: Step, b: Step)
    ensures Exec(s, [a]) == Apply(s, a)
    ensures Exec(s, [a, b]) == Apply(Apply(s, a), b)
  {
    assert [a][1..] == [] && [a, b][1..] == [b] && [b][1..] == [];
    assert Exec(s, [a, b]) == Exec(Apply(s, a), [b]) == Exec(Apply(Apply(s, a), b), []);
  }

  /**
   * A recovery started beside a live execution of a sent row can finish that row as expired (or errored)
   * and then see the execution overwrite it as confirmed.
   */
  lemma MidRunRecoveryOverwrites(s: Sys, id: TradeId)
    requires Inv(s) && s.recovering == []
    requires id in s.runs && (s.runs[id].phase.Confirming? || s.runs[id].phase.Settling?)
    ensures !SafeToRecover(s)
  {
    assert RunAgrees(s.db, id, s.runs[id]);
    var order := OrderFrom(s.db, id);
    var t := Apply(s, StartRecovery(order));
    assert t.recovering[0] == EntryOf(s.db, id);
    var first := [RecoveryAnswered(Says(IsExpired))];
    var finished := RecoveryFinishes(t, id, first[0]);
    var second := ExecutionOverwrites(finished, id);
    NoRecoveryIsBoot(t, first + second);
    assert !RowsReach(Exec(t, first).db, Exec(Exec(t, first), second).db);
    assert !FinalAfter(t, first, second);
  }

  lemma RecoveryFinishes(t: Sys, id: TradeId, step: Step) returns (finished: Sys)
    requires id in t.db.trades && t.recovering != [] && t.recovering[0].id == id
    requires step == RecoveryAnswered(Says(IsExpired))
    ensures finished == Exec(t, [step]) && finished.runs == t.runs
    ensures id in finished.db.trades && finished.db.trades[id].state in {Expired, Errored}
  {
    finished := Apply(t, step);
    ExecTwo(t, step, step);
  }

  lemma ExecutionOverwrites(s: Sys, id: TradeId) returns (steps: seq<Step>)
    requires id in s.db.trades && id in s.runs && (s.runs[id].phase.Confirming? || s.runs[id].phase.Settling?)
    ensures forall i | 0 <= i < |steps| :: !steps[i].StartRecovery?
    ensures id in Exec(s, steps).db.trades && Exec(s, steps).db.trades[id].state == Confirmed
  {
    var confirmed, settled := Answered(id, Confirmation(IsConfirmed)), Answered(id, SettleRead);
    if s.runs[id].phase.Confirming? {
      ExecTwo(s, confirmed, settled);
      steps := [confirmed, settled];
    } else {
      ExecTwo(s, settled, settled);
      steps := [settled];
    }
  }

  lemma {:induction false} NoRecoveryIsBoot(s: Sys, steps: seq<Step>)
    requires forall i | 0 <= i < |steps| :: !steps[i].StartRecovery?
    ensures BootRecovery(s, steps)
    decreases |steps|
  {
    if steps != [] {
      NoRecoveryIsBoot(Apply(s, steps[0]), steps[1..]);
    }
  }

  /**
   * The exact condition. At any reachable point, `recover()` leaves finished trades final whatever happens
   * next if and only if no execution of this process is confirming or settling a sent row.
   */
  lemma RecoverySafeIffQuiet(steps: seq<Step>)
    requires BootRecovery(INIT, steps) && Exec(INIT, steps).recovering == []
    ensures SafeToRecover(Exec(INIT, steps)) <==> Quiet(Exec(INIT, steps))
  {
    InitInv();
    RunKeeps(INIT, steps);
    var s := Exec(INIT, steps);
    if Quiet(s) {
      QuietIsSafe(s);
    } else {
      var id :| id in s.runs && (s.runs[id].phase.Confirming? || s.runs[id].phase.Settling?);
      MidRunRecoveryOverwrites(s, id);
    }
  }
}
