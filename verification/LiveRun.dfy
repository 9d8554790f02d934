/**
 * The money path as the source writes it: objects that update the store and their own locals, proved against
 * the segments of `Gateway`.
 */
module LiveExecution {
  import opened Options
  import opened Money
  import opened PolicyEngine
  import opened Store
  import opened Gateway
  import opened GatewayInvariants
  import opened GatewayTheorems
  import opened GatewayOutcomes

  /** One activation of `#live`: each method runs from an answered await to the next one, or to the end. */
  class LiveRun {
    const store: KernelStore
    const id: TradeId
    const request: Request
    const now: int
    var reservationId: Option<ReservationId>
    var inserted: bool
    var phase: Phase
    var returned: bool

    function Self(): Run
      reads this
    {
      Run(request, now, reservationId, inserted, phase)
    }

    /** The locals while suspended; None once `#live` has returned. */
    function Locals(): Option<Run>
      reads this
    {
      if returned then None else Some(Self())
    }

    constructor (store: KernelStore, id: TradeId, request: Request, now: int)
      modifies store
      ensures this.store == store && this.id == id
      ensures Outcome(store.Tables(), Locals(), []) == Begin(old(store.Tables()), id, request, now)
    {
      this.store, this.id, this.request, this.now := store, id, request, now;
      reservationId, inserted, phase, returned := None, false, Inspecting, false;
      new;
      var claimed := store.Claim(request.key, id);
      if !claimed {
        returned := true;
      } else if GuardsOf(request).Refused? || Unsettleable(request) {
        HandleError("GUARD");
      }
    }

    method HandleError(code: string)
      modifies this, store
      ensures returned
      ensures Outcome(store.Tables(), Locals(), []) == Catch(old(store.Tables()), id, old(Self()), code)
    {
      if reservationId.Some? {
        store.ReleaseReservation(reservationId.value);
      }
      if inserted {
        store.WriteFailure(id, Errored, code);
      }
      returned := true;
    }

    method MintsInspected(input2022: bool, output2022: bool)
      modifies this, store
      requires !returned
      ensures Outcome(store.Tables(), Locals(), [])
           == AfterInspect(old(store.Tables()), id, old(Self()), input2022, output2022)
    {
      if !request.policy.allowToken2022 && (input2022 || output2022) {
        HandleError("TOKEN2022_UNSUPPORTED");
        return;
      }
      var bucket := QuoteBucketFor(request.intent.inputMint);
      if bucket.Some? {
        var outcome := store.ReserveSpend(bucket.value, request.intent.inputAmount,
                                          CapsFor(request.policy, bucket.value), id, now);
        if outcome.Denied? {
          HandleError("CAP_EXCEEDED");
          return;
        }
        reservationId := Some(outcome.reservationId);
      }
      phase := ReadingBalances;
    }

    method BalancesRead(input: int)
      modifies this, store
      requires !returned
      ensures Outcome(store.Tables(), Locals(), []) == AfterBalances(old(store.Tables()), id, old(Self()), input)
    {
      var need := request.intent.inputAmount;
      if QuoteBucketFor(request.intent.inputMint) == Some(Sol) {
        need := need + FEE_BUFFER_LAMPORTS;
      }
      if input < need {
        HandleError("INSUFFICIENT_BALANCE");
        return;
      }
      var ok := store.Insert(id, NewRow(request.key, request.intent.lastValidBlockHeight, reservationId));
      if !ok {
        HandleError("INTERNAL");
        return;
      }
      inserted := true;
      phase := Simulating;
    }

    method Simulated(ok: bool) returns (calls: seq<Event>)
      modifies this, store
      requires !returned
      ensures Outcome(store.Tables(), Locals(), calls) == AfterSimulate(old(store.Tables()), id, old(Self()), ok)
    {
      calls := [];
      if !ok {
        HandleError("SIMULATION_FAILED");
        return;
      }
      phase := Signing;
      calls := [SignRequested(request.key)];
    }

    method Signed(wire: string, signature: string, hasBroadcaster: bool) returns (calls: seq<Event>)
      modifies this, store
      requires !returned
      ensures Outcome(store.Tables(), Locals(), calls)
           == AfterSign(old(store.Tables()), id, old(Self()), wire, signature, hasBroadcaster)
    {
      store.Persist(id, wire, signature);
      calls := [WirePersisted(request.key, wire)];
      if !hasBroadcaster {
        HandleError("BROADCAST_FAILED");
        return;
      }
      phase := Broadcasting(wire);
      calls := calls + [BroadcastRequested(request.key, wire)];
    }

    method BroadcastAnswered(signature: string)
      modifies this, store
      requires !returned
      ensures Outcome(store.Tables(), Locals(), []) == AfterBroadcast(old(store.Tables()), id, old(Self()), signature)
    {
      store.WriteSignature(id, signature);
      store.WriteState(id, Sent);
      phase := Confirming;
    }

    method ConfirmAnswered(status: ConfirmStatus)
      modifies this, store
      requires !returned
      ensures Outcome(store.Tables(), Locals(), []) == AfterConfirm(old(store.Tables()), id, old(Self()), status)
    {
      if status == IsConfirmed {
        phase := Settling;
        return;
      }
      if reservationId.Some? {
        store.ReleaseReservation(reservationId.value);
      }
      if status == IsExpired {
        store.WriteFailure(id, Expired, "CONFIRM_TIMEOUT");
      } else {
        store.WriteFailure(id, Errored, "BROADCAST_FAILED");
      }
      returned := true;
    }

    method SettleAnswered()
      modifies this, store
      requires !returned
      ensures Outcome(store.Tables(), Locals(), []) == AfterSettle(old(store.Tables()), id, old(Self()))
    {
      if reservationId.Some? {
        store.ConsumeReservation(reservationId.value);
      }
      store.WriteState(id, Confirmed);
      returned := true;
    }

    /** Whatever the await resolved to; a rejection lands in the catch block. */
    method Resumed(answer: Answer) returns (calls: seq<Event>)
      modifies this, store
      requires !returned
      ensures Outcome(store.Tables(), Locals(), calls) == Resume(old(store.Tables()), id, old(Self()), answer)
    {
      calls := [];
      match (phase, answer)
      case (_, Rejects) => HandleError("INTERNAL");
      case (Inspecting, Mints(input2022, output2022)) => MintsInspected(input2022, output2022);
      case (ReadingBalances, Balances(input)) => BalancesRead(input);
      case (Simulating, Simulation(ok)) => calls := Simulated(ok);
      case (Signing, SignedTx(wire, signature, hasBroadcaster)) => calls := Signed(wire, signature, hasBroadcaster);
      case (Broadcasting(_), Landed(signature)) => BroadcastAnswered(signature);
      case (Confirming, Confirmation(status)) => ConfirmAnswered(status);
      case (Settling, SettleRead) => SettleAnswered();
      case _ =>
    }
  }

  // ---- recovery on its own -----------------------------------------------------------------------

  /** The confirmer's reply ends the pass: it is asked about the row, and it rejects. */
  predicate Throws(entry: JobEntry, reply: RecoveryAnswer) {
    !NoSignature(entry) && reply.ConfirmerRejects?
  }

  /** What the loop body makes of one row, when the confirmer replies and does not throw. */
  function SettleWith(db: Db, entry: JobEntry, reply: RecoveryAnswer): Db {
    Gateway.Settle(db, entry, if reply.Says? then reply.status else IsFailed)
  }

  /** The loop of `recover` over `entries`, when the confirmer replies `reply(id)` for each row. */
  function SettleAll(db: Db, entries: seq<JobEntry>, reply: TradeId -> RecoveryAnswer): Db {
    if entries == [] then db
    else
      var last := entries[|entries| - 1];
      SettleWith(SettleAll(db, entries[..|entries| - 1], reply), last, reply(last.id))
  }

  predicate CountsConfirmed(entry: JobEntry, reply: TradeId -> RecoveryAnswer) {
    !NoSignature(entry) && reply(entry.id) == Says(IsConfirmed)
  }

  function ConfirmedCount(entries: seq<JobEntry>, reply: TradeId -> RecoveryAnswer): nat {
    if entries == [] then 0
    else
      var last := entries[|entries| - 1];
      ConfirmedCount(entries[..|entries| - 1], reply) + if CountsConfirmed(last, reply) then 1 else 0
  }

  lemma SettleRow(db: Db, entry: JobEntry, reply: RecoveryAnswer)
    requires entry.id in db.trades
    ensures var after := SettleWith(db, entry, reply).trades;
      && after.Keys == db.trades.Keys
      && (forall id | id in db.trades && id != entry.id :: after[id] == db.trades[id])
      && Terminal(after[entry.id].state)
  {
  }

  /** The rows `after` differ from `before` only on `order`, where they are terminal. */
  predicate OnlyFinishes(before: map<TradeId, TradeRow>, after: map<TradeId, TradeRow>, order: seq<TradeId>) {
    && after.Keys == before.Keys
    && (forall id | id in before && id !in order :: after[id] == before[id])
    && (forall id | id in before && id in order :: Terminal(after[id].state))
  }

  lemma {:induction false} SettleAllRows(db: Db, order: seq<TradeId>, reply: TradeId -> RecoveryAnswer)
    requires forall i | 0 <= i < |order| :: order[i] in db.trades
    ensures OnlyFinishes(db.trades, SettleAll(db, Snapshot(db, order), reply).trades, order)
  {
    if order != [] {
      var n := |order| - 1;
      var entries := Snapshot(db, order);
      SettleAllRows(db, order[..n], reply);
      assert entries[..n] == Snapshot(db, order[..n]);
      var mid := SettleAll(db, entries[..n], reply);
      SettleRow(mid, entries[n], reply(entries[n].id));
      assert order == order[..n] + [order[n]];
    }
  }

  /** The rows a pass has come to: each holds its own reservation, if it has one. */
  predicate ListedHold(db: Db, order: seq<TradeId>)
    requires forall i | 0 <= i < |order| :: order[i] in db.trades
  {
    forall i | 0 <= i < |order| :: Owns(db, db.trades[order[i]].reservationId, order[i], Held)
  }

  /** The rows a pass settles end by the replies about them, and with them their reservations. */
  predicate PassSettles(before: Db, after: Db, order: seq<TradeId>, reply: TradeId -> RecoveryAnswer)
    requires forall i | 0 <= i < |order| :: order[i] in before.trades
  {
    && after.trades.Keys == before.trades.Keys
    && forall i | 0 <= i < |order| :: SettledBy(before.trades[order[i]], after.trades[order[i]], after.spends, reply(order[i]))
  }

  /** Only reservations of the listed trades are touched. */
  predicate OthersKeepSpends(before: Db, after: Db, order: seq<TradeId>) {
    && |after.spends| == |before.spends|
    && forall r | 0 <= r < |before.spends| && before.spends[r].tradeId !in order :: after.spends[r] == before.spends[r]
  }

  lemma {:induction false} PassDecides(db: Db, order: seq<TradeId>, reply: TradeId -> RecoveryAnswer)
    requires forall i | 0 <= i < |order| :: order[i] in db.trades
    requires forall i, j | 0 <= i < j < |order| :: order[i] != order[j]
    requires forall i | 0 <= i < |order| :: !Throws(EntryOf(db, order[i]), reply(order[i]))
    requires ListedHold(db, order)
    ensures PassSettles(db, SettleAll(db, Snapshot(db, order), reply), order, reply)
    ensures OthersKeepSpends(db, SettleAll(db, Snapshot(db, order), reply), order)
  {
    if order != [] {
      var n := |order| - 1;
      var front, last := order[..n], order[n];
      assert Snapshot(db, order)[..n] == Snapshot(db, front);
      PassDecides(db, front, reply);
      SettleAllRows(db, front, reply);
      var mid := SettleAll(db, Snapshot(db, front), reply);
      OneMoreSettles(db, mid, front, last, reply);
      assert order == front + [last];
    }
  }

  lemma OneMoreSettles(db: Db, mid: Db, front: seq<TradeId>, last: TradeId, reply: TradeId -> RecoveryAnswer)
    requires forall i | 0 <= i < |front| :: front[i] in db.trades
    requires last in db.trades && last !in front && ListedHold(db, front + [last])
    requires PassSettles(db, mid, front, reply) && OthersKeepSpends(db, mid, front) && OnlyFinishes(db.trades, mid.trades, front)
    requires !Throws(EntryOf(db, last), reply(last))
    ensures var after := SettleWith(mid, EntryOf(db, last), reply(last));
      PassSettles(db, after, front + [last], reply) && OthersKeepSpends(db, after, front + [last])
  {
    var order := front + [last];
    assert order[|front|] == last;
    assert Owns(db, db.trades[last].reservationId, last, Held);
    assert mid.trades[last] == db.trades[last];
    SettleDecides(mid, last, reply(last));
    var after := SettleWith(mid, EntryOf(db, last), reply(last));
    forall i | 0 <= i < |order|
      ensures SettledBy(db.trades[order[i]], after.trades[order[i]], after.spends, reply(order[i]))
    {
      if i < |front| {
        assert order[i] == front[i] && Owns(db, db.trades[order[i]].reservationId, order[i], Held);
        assert SettledBy(db.trades[front[i]], mid.trades[front[i]], mid.spends, reply(front[i]));
      }
    }
  }

  /** The states of the settled rows, whatever their reservations. */
  lemma {:induction false} PassDecidesStates(db: Db, order: seq<TradeId>, reply: TradeId -> RecoveryAnswer)
    requires forall i | 0 <= i < |order| :: order[i] in db.trades
    requires forall i, j | 0 <= i < j < |order| :: order[i] != order[j]
    requires forall i | 0 <= i < |order| :: !Throws(EntryOf(db, order[i]), reply(order[i]))
    ensures OnlyFinishes(db.trades, SettleAll(db, Snapshot(db, order), reply).trades, order)
    ensures forall i | 0 <= i < |order| ::
      Decides(db.trades[order[i]].signature, reply(order[i]), SettleAll(db, Snapshot(db, order), reply).trades[order[i]].state)
  {
    SettleAllRows(db, order, reply);
    if order != [] {
      var n := |order| - 1;
      var front := order[..n];
      assert Snapshot(db, order)[..n] == Snapshot(db, front);
      PassDecidesStates(db, front, reply);
      SettleDecidesState(SettleAll(db, Snapshot(db, front), reply), EntryOf(db, order[n]), reply(order[n]));
    }
  }

  lemma SettleDecidesState(db: Db, entry: JobEntry, reply: RecoveryAnswer)
    requires entry.id in db.trades && !Throws(entry, reply)
    ensures var after := SettleWith(db, entry, reply).trades;
      && entry.id in after && Decides(entry.signature, reply, after[entry.id].state)
      && (forall j | j in db.trades && j != entry.id :: j in after && after[j] == db.trades[j])
  {
  }

  /** What `recover` resolves to. */
  datatype ReconcileSummary = ReconcileSummary(checked: nat, confirmed: nat, failed: nat)

  class Reconciler {
    const store: KernelStore

    constructor (store: KernelStore)
      ensures this.store == store
    {
      this.store := store;
    }

    method SettleOne(entry: JobEntry, conf: ConfirmStatus) returns (landed: bool)
      modifies store
      ensures store.Tables() == Gateway.Settle(old(store.Tables()), entry, conf)
      ensures landed == (!NoSignature(entry) && conf == IsConfirmed)
      ensures entry.id in old(store.trades) ==>
        entry.id in store.trades && Decides(entry.signature, Says(conf), store.trades[entry.id].state)
    {
      landed := false;
      if NoSignature(entry) {
        if entry.reservationId.Some? {
          store.ReleaseReservation(entry.reservationId.value);
        }
        store.WriteFailure(entry.id, Errored, "RECONCILE_NO_SIGNATURE");
      } else if conf == IsConfirmed {
        if entry.reservationId.Some? {
          store.ConsumeReservation(entry.reservationId.value);
        }
        store.WriteState(entry.id, Confirmed);
        landed := true;
      } else {
        if entry.reservationId.Some? {
          store.ReleaseReservation(entry.reservationId.value);
        }
        if conf == IsExpired {
          store.WriteFailure(entry.id, Expired, "RECONCILE_EXPIRED");
        } else {
          store.WriteFailure(entry.id, Errored, "RECONCILE_FAILED");
        }
      }
    }

    /**
     * Rows found `sent` are settled one by one, each once and by the confirmer's word, up to the first row whose
     * confirmation throws. A signed row ends confirmed, expired or errored as the confirmer says, an unsigned one
     * errored, and its reservation is consumed in the first case and released in the others. No other trade row
     * changes; without a throw none is left `sent`, and after a throw (None) exactly the rows from that one on are.
     */
    method Recover(reply: TradeId -> RecoveryAnswer)
      returns (summary: Option<ReconcileSummary>, ghost order: seq<TradeId>, ghost done: nat)
      modifies store
      ensures ListsSent(old(store.Tables()), order) && done <= |order|
      ensures var entries := Snapshot(old(store.Tables()), order);
        && store.Tables() == SettleAll(old(store.Tables()), entries[..done], reply)
        && (forall i | 0 <= i < done :: !Throws(entries[i], reply(order[i])))
        && (if summary.None? then done < |order| && Throws(entries[done], reply(order[done]))
            else done == |order| == summary.value.checked == summary.value.confirmed + summary.value.failed
                 && summary.value.confirmed == ConfirmedCount(entries, reply))
      ensures OnlyFinishes(old(store.trades), store.trades, order[..done])
      ensures forall i | 0 <= i < done ::
        Decides(old(store.trades)[order[i]].signature, reply(order[i]), store.trades[order[i]].state)
      ensures SentRowsHold(old(store.Tables())) ==>
        && PassSettles(old(store.Tables()), store.Tables(), order[..done], reply)
        && OthersKeepSpends(old(store.Tables()), store.Tables(), order[..done])
      ensures forall id | id in store.trades :: store.trades[id].state == Sent <==> id in order[done..]
    {
      var pending := store.PendingSent();
      order := pending;
      var entries := Snapshot(store.Tables(), pending);
      var confirmed, failed := 0, 0;
      for i := 0 to |entries|
        invariant store.Tables() == SettleAll(old(store.Tables()), entries[..i], reply)
        invariant forall j | 0 <= j < i :: !Throws(entries[j], reply(order[j]))
        invariant confirmed + failed == i && confirmed == ConfirmedCount(entries[..i], reply)
      {
        var answer := reply(entries[i].id);
        if Throws(entries[i], answer) {
          PassEnds(old(store.Tables()), pending, i, reply);
          assert store.trades == store.Tables().trades;
          return None, pending, i;
        }
        assert entries[..i + 1][..i] == entries[..i];
        var landed := SettleOne(entries[i], if answer.Says? then answer.status else IsFailed);
        if landed {
          confirmed := confirmed + 1;
        } else {
          failed := failed + 1;
        }
      }
      done := |pending|;
      summary := Some(ReconcileSummary(|pending|, confirmed, failed));
      assert entries[..|entries|] == entries;
      PassEnds(old(store.Tables()), pending, done, reply);
      assert store.trades == store.Tables().trades;
    }
  }

  /** Rows listed and not come to are still `sent`, and no others. */
  lemma RestStaysSent(db: Db, order: seq<TradeId>, done: nat, after: map<TradeId, TradeRow>)
    requires ListsSent(db, order) && done <= |order| && OnlyFinishes(db.trades, after, order[..done])
    ensures forall id | id in after :: after[id].state == Sent <==> id in order[done..]
  {
    assert order == order[..done] + order[done..];
    forall id | id in after ensures after[id].state == Sent <==> id in order[done..] {
      if id in order[done..] {
        var k :| done <= k < |order| && order[k] == id;
        assert id !in order[..done];
      }
    }
  }

  /** What `done` rows of a pass leave. */
  lemma PassEnds(db: Db, order: seq<TradeId>, done: nat, reply: TradeId -> RecoveryAnswer)
    requires ListsSent(db, order) && done <= |order|
    requires forall i | 0 <= i < done :: !Throws(Snapshot(db, order)[i], reply(order[i]))
    ensures var end := SettleAll(db, Snapshot(db, order)[..done], reply);
      && OnlyFinishes(db.trades, end.trades, order[..done])
      && (forall i | 0 <= i < done :: Decides(db.trades[order[i]].signature, reply(order[i]), end.trades[order[i]].state))
      && (SentRowsHold(db) ==> PassSettles(db, end, order[..done], reply) && OthersKeepSpends(db, end, order[..done]))
      && (forall id | id in end.trades :: end.trades[id].state == Sent <==> id in order[done..])
  {
    assert Snapshot(db, order)[..done] == Snapshot(db, order[..done]);
    PassDecidesStates(db, order[..done], reply);
    if SentRowsHold(db) {
      PassDecides(db, order[..done], reply);
    }
    RestStaysSent(db, order, done, SettleAll(db, Snapshot(db, order[..done]), reply).trades);
  }

  lemma {:induction false} PassIsStepping(s: Sys, entries: seq<JobEntry>, done: nat, reply: TradeId -> RecoveryAnswer)
    requires s.recovering == entries && done <= |entries|
    requires forall i | 0 <= i < done :: !Throws(entries[i], reply(entries[i].id))
    ensures Exec(s, Replies(entries[..done], reply))
         == s.(db := SettleAll(s.db, entries[..done], reply), recovering := entries[done..])
  {
    if done == 0 {
    } else {
      var n := done - 1;
      PassIsStepping(s, entries, n, reply);
      assert entries[..done][..n] == entries[..n] && entries[n..][1..] == entries[done..];
      var step := RecoveryAnswered(reply(entries[n].id));
      assert Replies(entries[..done], reply) == Replies(entries[..n], reply) + [step];
      ExecAppend(s, Replies(entries[..n], reply), [step]);
      ExecTwo(Exec(s, Replies(entries[..n], reply)), step, step);
    }
  }

  /** The steps of the system a pass over `entries` takes. */
  function Replies(entries: seq<JobEntry>, reply: TradeId -> RecoveryAnswer): seq<Step> {
    seq(|entries|, i requires 0 <= i < |entries| => RecoveryAnswered(reply(entries[i].id)))
  }
}
