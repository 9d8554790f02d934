/**
 * What every interleaving of executions, crashes and boot-time recoveries keeps: trade rows agree with
 * their reservations, terminal rows are final, and one idempotency key is signed and broadcast at most once.
 */
module GatewayInvariants {
  import opened Options
  import opened Store
  import opened Gateway

  // ---- the invariant -----------------------------------------------------------------------------

  /** The spend state a trade state stands for. */
  function SpendStateOf(state: TradeState): SpendState {
    match state
    case Reserved => Held
    case Sent => Held
    case Confirmed => Consumed
    case Expired => Released
    case Errored => Released
  }

  predicate Owns(db: Db, r: Option<ReservationId>, id: TradeId, state: SpendState) {
    r.Some? ==> r.value < |db.spends| && db.spends[r.value].tradeId == id && db.spends[r.value].state == state
  }

  predicate RowAgrees(db: Db, id: TradeId)
    requires id in db.trades
  {
    Owns(db, db.trades[id].reservationId, id, SpendStateOf(db.trades[id].state))
  }

  /** A consumed row of `spends` is the reservation of a confirmed trade. */
  predicate Backed(db: Db, r: nat)
    requires r < |db.spends|
  {
    var id := db.spends[r].tradeId;
    db.spends[r].state == Consumed ==>
      id in db.trades && db.trades[id].state == Confirmed && db.trades[id].reservationId == Some(r)
  }

  predicate AllBacked(db: Db, id: TradeId) {
    forall r | 0 <= r < |db.spends| && db.spends[r].tradeId == id :: Backed(db, r)
  }

  predicate RowIs(db: Db, id: TradeId, run: Run, state: TradeState, wire: Option<string>) {
    && id in db.trades
    && run.inserted
    && db.trades[id].idempotencyKey == run.request.key
    && db.trades[id].state == state
    && db.trades[id].reservationId == run.reservationId
    && db.trades[id].signedWire == wire
  }

  /** What a suspended execution finds in the tables, await by await. */
  predicate RunAgrees(db: Db, id: TradeId, run: Run) {
    && GuardsOf(run.request).Accepted?
    && match run.phase
       case Inspecting => id !in db.trades && !run.inserted && run.reservationId.None?
       case ReadingBalances => id !in db.trades && !run.inserted && Owns(db, run.reservationId, id, Held)
       case Simulating => RowIs(db, id, run, Reserved, None)
       case Signing => RowIs(db, id, run, Reserved, None)
       case Broadcasting(wire) => RowIs(db, id, run, Reserved, Some(wire))
       case Confirming => id in db.trades && RowIs(db, id, run, Sent, db.trades[id].signedWire)
       case Settling => id in db.trades && RowIs(db, id, run, Sent, db.trades[id].signedWire)
  }

  predicate Keyed(db: Db, key: string, id: TradeId) {
    key in db.idempotency && db.idempotency[key] == id
  }

  predicate TablesOk(db: Db, next: TradeId) {
    && (forall id | id in db.trades :: RowAgrees(db, id))
    && (forall id | id in db.trades :: id < next && Keyed(db, db.trades[id].idempotencyKey, id))
    && (forall r | 0 <= r < |db.spends| :: db.spends[r].tradeId < next && Backed(db, r))
    && (forall key | key in db.idempotency :: db.idempotency[key] < next)
  }

  predicate RunsOk(s: Sys) {
    forall id | id in s.runs ::
      id < s.next && Keyed(s.db, s.runs[id].request.key, id) && RunAgrees(s.db, id, s.runs[id])
  }

  predicate EntryOk(s: Sys, entry: JobEntry) {
    && entry.id in s.db.trades
    && entry.id !in s.runs
    && s.db.trades[entry.id].state == Sent
    && EntryOf(s.db, entry.id) == entry
  }

  predicate JobOk(s: Sys) {
    && (forall i | 0 <= i < |s.recovering| :: EntryOk(s, s.recovering[i]))
    && (forall i, j | 0 <= i < j < |s.recovering| :: s.recovering[i].id != s.recovering[j].id)
  }

  predicate Listed(job: seq<JobEntry>, id: TradeId) {
    exists i | 0 <= i < |job| :: job[i].id == id
  }

  /** After a sweep, whatever is still `sent` is being looked after. */
  predicate SentOk(s: Sys) {
    s.swept ==> forall id | id in s.db.trades && s.db.trades[id].state == Sent ::
      id in s.runs || Listed(s.recovering, id)
  }

  predicate SignedOnce(log: seq<Event>) {
    forall i, j | 0 <= i < j < |log| && log[i].SignRequested? && log[j].SignRequested? :: log[i].key != log[j].key
  }

  predicate BroadcastOnce(log: seq<Event>) {
    forall i, j | 0 <= i < j < |log| && log[i].BroadcastRequested? && log[j].BroadcastRequested? ::
      log[i].key != log[j].key
  }

  /** The row of `key` holds exactly the bytes `wire`. */
  predicate RowHolds(db: Db, key: string, wire: string) {
    && key in db.idempotency
    && db.idempotency[key] in db.trades
    && db.trades[db.idempotency[key]].idempotencyKey == key
    && db.trades[db.idempotency[key]].signedWire == Some(wire)
  }

  predicate PersistedFirst(log: seq<Event>) {
    forall j | 0 <= j < |log| && log[j].BroadcastRequested? :: WirePersisted(log[j].key, log[j].wire) in log[..j]
  }

  predicate NeverSigned(log: seq<Event>, key: string) {
    forall i | 0 <= i < |log| && log[i].SignRequested? :: log[i].key != key
  }

  predicate NeverBroadcast(log: seq<Event>, key: string) {
    forall i | 0 <= i < |log| && log[i].BroadcastRequested? :: log[i].key != key
  }

  predicate Presign(phase: Phase) {
    phase.Inspecting? || phase.ReadingBalances? || phase.Simulating?
  }

  predicate LogOk(s: Sys) {
    && SignedOnce(s.log) && BroadcastOnce(s.log) && PersistedFirst(s.log)
    && (forall i | 0 <= i < |s.log| :: s.log[i].key in s.db.idempotency)
    && (forall i | 0 <= i < |s.log| && s.log[i].BroadcastRequested? :: RowHolds(s.db, s.log[i].key, s.log[i].wire))
    && (forall id | id in s.runs && Presign(s.runs[id].phase) :: NeverSigned(s.log, s.runs[id].request.key))
    && (forall id | id in s.runs && (Presign(s.runs[id].phase) || s.runs[id].phase.Signing?) ::
          NeverBroadcast(s.log, s.runs[id].request.key))
  }

  predicate Inv(s: Sys) {
    TablesOk(s.db, s.next) && RunsOk(s) && JobOk(s) && SentOk(s) && LogOk(s)
  }

  // ---- what one step may change ------------------------------------------------------------------

  predicate MayBecome(a: TradeState, b: TradeState) {
    || a == b
    || (a == Reserved && (b == Sent || b == Errored))
    || (a == Sent && Terminal(b))
  }

  /** How a row may differ after one step. */
  predicate RowEvolves(a: TradeRow, b: TradeRow) {
    && MayBecome(a.state, b.state)
    && b.idempotencyKey == a.idempotencyKey
    && b.reservationId == a.reservationId
    && (a.signedWire.Some? ==> b.signedWire == a.signedWire)
    && (Terminal(a.state) ==> b == a)
  }

  predicate RowsEvolve(a: Db, b: Db) {
    forall id | id in a.trades :: id in b.trades && RowEvolves(a.trades[id], b.trades[id])
  }

  /** How the rows may differ after any number of steps. */
  predicate RowsReach(a: Db, b: Db) {
    forall id | id in a.trades ::
      && id in b.trades
      && (Terminal(a.trades[id].state) ==> b.trades[id] == a.trades[id])
      && (a.trades[id].state == Sent ==> b.trades[id].state == Sent || Terminal(b.trades[id].state))
      && (a.trades[id].signedWire.Some? ==> b.trades[id].signedWire == a.trades[id].signedWire)
      && b.trades[id].idempotencyKey == a.trades[id].idempotencyKey
      && b.trades[id].reservationId == a.trades[id].reservationId
  }

  /** A segment of trade `id` leaves every other trade's row, and its reservations, alone. */
  predicate OnlyTouches(a: Db, b: Db, id: TradeId) {
    && (forall j | j in b.trades && j != id :: j in a.trades)
    && (forall j | j in a.trades && j != id :: j in b.trades && b.trades[j] == a.trades[j])
    && (forall key | key in a.idempotency :: key in b.idempotency && b.idempotency[key] == a.idempotency[key])
    && (forall key | key in b.idempotency && key !in a.idempotency :: b.idempotency[key] == id)
    && |a.spends| <= |b.spends|
    && (forall r | 0 <= r < |a.spends| :: b.spends[r] == a.spends[r].(state := b.spends[r].state))
    && (forall r | 0 <= r < |a.spends| && a.spends[r].tradeId != id :: b.spends[r] == a.spends[r])
    && (forall r | |a.spends| <= r < |b.spends| :: b.spends[r].tradeId == id)
  }

  /** What a segment of an agreeing execution establishes about its own trade. */
  predicate SegmentOk(db: Db, id: TradeId, key: string, o: Outcome) {
    && OnlyTouches(db, o.db, id)
    && (id in db.trades ==> id in o.db.trades && RowEvolves(db.trades[id], o.db.trades[id]))
    && (id in o.db.trades ==> RowAgrees(o.db, id) && o.db.trades[id].idempotencyKey == key)
    && AllBacked(o.db, id)
    && (id in o.db.trades && o.db.trades[id].state == Sent ==> o.run.Some?)
    && (o.run.Some? ==> RunAgrees(o.db, id, o.run.value) && o.run.value.request.key == key)
  }

  /** The precondition every segment of trade `id` runs under. */
  predicate Ready(db: Db, id: TradeId, run: Run) {
    && RunAgrees(db, id, run)
    && AllBacked(db, id)
    && (id in db.trades ==> RowAgrees(db, id) && db.trades[id].idempotencyKey == run.request.key)
  }

  lemma ReleaseTouches(db: Db, id: TradeId, r: Option<ReservationId>)
    requires Owns(db, r, id, Held)
    ensures OnlyTouches(db, ReleaseOptional(db, r), id)
    ensures Owns(ReleaseOptional(db, r), r, id, Released)
    ensures ReleaseOptional(db, r).trades == db.trades
    ensures ReleaseOptional(db, r).idempotency == db.idempotency
  {
  }

  lemma ConsumeTouches(db: Db, id: TradeId, r: Option<ReservationId>)
    requires Owns(db, r, id, Held)
    ensures OnlyTouches(db, ConsumeOptional(db, r), id)
    ensures Owns(ConsumeOptional(db, r), r, id, Consumed)
    ensures ConsumeOptional(db, r).trades == db.trades
    ensures ConsumeOptional(db, r).idempotency == db.idempotency
  {
  }

  lemma CatchOk(db: Db, id: TradeId, run: Run, code: string)
    requires Ready(db, id, run)
    ensures SegmentOk(db, id, run.request.key, Catch(db, id, run, code))
    ensures Catch(db, id, run, code).db.idempotency == db.idempotency
  {
    ReleaseTouches(db, id, run.reservationId);
  }

  lemma InspectOk(db: Db, id: TradeId, run: Run, i: bool, o: bool)
    requires Ready(db, id, run) && run.phase.Inspecting?
    ensures SegmentOk(db, id, run.request.key, AfterInspect(db, id, run, i, o))
    ensures AfterInspect(db, id, run, i, o).db.idempotency == db.idempotency
  {
    CatchOk(db, id, run, "TOKEN2022_UNSUPPORTED");
    CatchOk(db, id, run, "CAP_EXCEEDED");
  }

  lemma BalancesOk(db: Db, id: TradeId, run: Run, input: int)
    requires Ready(db, id, run) && run.phase.ReadingBalances?
    ensures SegmentOk(db, id, run.request.key, AfterBalances(db, id, run, input))
    ensures AfterBalances(db, id, run, input).db.idempotency == db.idempotency
  {
    CatchOk(db, id, run, "INSUFFICIENT_BALANCE");
    CatchOk(db, id, run, "INTERNAL");
  }

  lemma SimulateOk(db: Db, id: TradeId, run: Run, ok: bool)
    requires Ready(db, id, run) && run.phase.Simulating?
    ensures SegmentOk(db, id, run.request.key, AfterSimulate(db, id, run, ok))
    ensures AfterSimulate(db, id, run, ok).db.idempotency == db.idempotency
  {
    CatchOk(db, id, run, "SIMULATION_FAILED");
  }

  lemma SignOk(db: Db, id: TradeId, run: Run, wire: string, signature: string, has: bool)
    requires Ready(db, id, run) && run.phase.Signing?
    ensures SegmentOk(db, id, run.request.key, AfterSign(db, id, run, wire, signature, has))
    ensures AfterSign(db, id, run, wire, signature, has).db.idempotency == db.idempotency
  {
    var persisted := PersistSigned(db, id, wire, signature);
    assert OnlyTouches(db, persisted, id);
    assert persisted.trades[id].signedWire == Some(wire);
    if !has {
      ReleaseTouches(persisted, id, run.reservationId);
    }
  }

  lemma BroadcastOk(db: Db, id: TradeId, run: Run, signature: string)
    requires Ready(db, id, run) && run.phase.Broadcasting?
    ensures SegmentOk(db, id, run.request.key, AfterBroadcast(db, id, run, signature))
    ensures AfterBroadcast(db, id, run, signature).db.idempotency == db.idempotency
  {
  }

  lemma ConfirmOk(db: Db, id: TradeId, run: Run, status: ConfirmStatus)
    requires Ready(db, id, run) && run.phase.Confirming?
    ensures SegmentOk(db, id, run.request.key, AfterConfirm(db, id, run, status))
    ensures AfterConfirm(db, id, run, status).db.idempotency == db.idempotency
  {
    ReleaseTouches(db, id, run.reservationId);
  }

  lemma SettleOk(db: Db, id: TradeId, run: Run)
    requires Ready(db, id, run) && run.phase.Settling?
    ensures SegmentOk(db, id, run.request.key, AfterSettle(db, id, run))
    ensures AfterSettle(db, id, run).db.idempotency == db.idempotency
  {
    ConsumeTouches(db, id, run.reservationId);
  }

  lemma ResumeOk(db: Db, id: TradeId, run: Run, answer: Answer)
    requires Ready(db, id, run)
    ensures SegmentOk(db, id, run.request.key, Resume(db, id, run, answer))
    ensures Resume(db, id, run, answer).db.idempotency == db.idempotency
  {
    match (run.phase, answer)
    case (_, Rejects) => CatchOk(db, id, run, "INTERNAL");
    case (Inspecting, Mints(i, o)) => InspectOk(db, id, run, i, o);
    case (ReadingBalances, Balances(input)) => BalancesOk(db, id, run, input);
    case (Simulating, Simulation(ok)) => SimulateOk(db, id, run, ok);
    case (Signing, SignedTx(wire, sig, has)) => SignOk(db, id, run, wire, sig, has);
    case (Broadcasting(_), Landed(sig)) => BroadcastOk(db, id, run, sig);
    case (Confirming, Confirmation(status)) => ConfirmOk(db, id, run, status);
    case (Settling, SettleRead) => SettleOk(db, id, run);
    case _ =>
  }

  // ---- one step of the system --------------------------------------------------------------------

  /** Everything `Follow` needs to know about a segment: of a new trade (`id == s.next`) or of a suspended one. */
  predicate Followable(s: Sys, id: TradeId, key: string, o: Outcome, next: TradeId) {
    && TablesOk(s.db, s.next) && RunsOk(s) && JobOk(s) && SentOk(s)
    && id < next && s.next <= next
    && (id in s.runs || id == s.next)
    && SegmentOk(s.db, id, key, o)
    && Keyed(o.db, key, id)
  }

  lemma FollowTables(s: Sys, id: TradeId, key: string, o: Outcome, next: TradeId)
    requires Followable(s, id, key, o, next)
    ensures TablesOk(o.db, next)
    ensures RowsEvolve(s.db, o.db)
  {
    forall j | j in o.db.trades ensures RowAgrees(o.db, j) && j < next && Keyed(o.db, o.db.trades[j].idempotencyKey, j) {
      if j != id {
        assert j in s.db.trades && RowAgrees(s.db, j);
        assert Keyed(s.db, s.db.trades[j].idempotencyKey, j);
      }
    }
    forall r | 0 <= r < |o.db.spends| ensures o.db.spends[r].tradeId < next && Backed(o.db, r) {
      if o.db.spends[r].tradeId != id {
        assert Backed(s.db, r);
      }
    }
  }

  lemma FollowRuns(s: Sys, id: TradeId, key: string, o: Outcome, next: TradeId)
    requires Followable(s, id, key, o, next)
    ensures RunsOk(Follow(s, id, o).(next := next))
    ensures JobOk(Follow(s, id, o).(next := next))
    ensures SentOk(Follow(s, id, o).(next := next))
  {
    var t := Follow(s, id, o).(next := next);
    forall j | j in t.runs ensures j < next && Keyed(t.db, t.runs[j].request.key, j) && RunAgrees(t.db, j, t.runs[j]) {
      if j != id {
        assert j in s.runs && RunAgrees(s.db, j, s.runs[j]);
      }
    }
    forall i | 0 <= i < |t.recovering| ensures EntryOk(t, t.recovering[i]) {
      assert EntryOk(s, s.recovering[i]);
      assert s.recovering[i].id != id;
    }
    if t.swept {
      forall j | j in t.db.trades && t.db.trades[j].state == Sent ensures j in t.runs || Listed(t.recovering, j) {
        if j != id {
          assert j in s.db.trades && s.db.trades[j].state == Sent;
          assert j in s.runs || Listed(s.recovering, j);
        }
      }
    }
  }

  /** The calls a segment may make: none, a first signing, or persisted bytes and their first broadcast. */
  predicate EventsOk(s: Sys, key: string, o: Outcome) {
    || o.events == []
    || (o.events == [SignRequested(key)] && NeverSigned(s.log, key) && o.run.Some? && o.run.value.phase.Signing?
        && NeverBroadcast(s.log, key))
    || (|o.events| == 1 && o.events[0].WirePersisted? && o.events[0].key == key && o.run.None?)
    || (|o.events| == 2 && NeverBroadcast(s.log, key) && o.run.Some? && o.run.value.phase.Broadcasting?
        && o.events == [WirePersisted(key, o.run.value.phase.wire), BroadcastRequested(key, o.run.value.phase.wire)])
  }

  /** A run that a segment leaves early in the protocol has still not been signed or broadcast. */
  predicate StillEarly(s: Sys, key: string, o: Outcome) {
    && (o.run.Some? && Presign(o.run.value.phase) ==> o.events == [] && NeverSigned(s.log, key) && NeverBroadcast(s.log, key))
    && (o.run.Some? && o.run.value.phase.Signing? ==> NeverBroadcast(s.log, key))
  }

  lemma FollowUnique(s: Sys, id: TradeId, key: string, o: Outcome)
    requires SignedOnce(s.log) && BroadcastOnce(s.log) && PersistedFirst(s.log) && EventsOk(s, key, o)
    ensures SignedOnce(s.log + o.events) && BroadcastOnce(s.log + o.events) && PersistedFirst(s.log + o.events)
  {
    var log := s.log + o.events;
    forall j | 0 <= j < |log| && log[j].BroadcastRequested? ensures WirePersisted(log[j].key, log[j].wire) in log[..j] {
      if j < |s.log| {
        assert log[..j] == s.log[..j];
      } else {
        assert log[..j][j - 1] == WirePersisted(log[j].key, log[j].wire);
      }
    }
  }

  lemma FollowHolds(s: Sys, id: TradeId, key: string, o: Outcome, next: TradeId)
    requires Followable(s, id, key, o, next) && EventsOk(s, key, o)
    requires forall i | 0 <= i < |s.log| :: s.log[i].key in s.db.idempotency
    requires forall i | 0 <= i < |s.log| && s.log[i].BroadcastRequested? :: RowHolds(s.db, s.log[i].key, s.log[i].wire)
    ensures forall i | 0 <= i < |s.log + o.events| :: (s.log + o.events)[i].key in o.db.idempotency
    ensures forall i | 0 <= i < |s.log + o.events| && (s.log + o.events)[i].BroadcastRequested? ::
              RowHolds(o.db, (s.log + o.events)[i].key, (s.log + o.events)[i].wire)
  {
    var log := s.log + o.events;
    FollowTables(s, id, key, o, next);
    forall i | 0 <= i < |log| && log[i].BroadcastRequested? ensures RowHolds(o.db, log[i].key, log[i].wire) {
      if i < |s.log| {
        assert RowHolds(s.db, s.log[i].key, s.log[i].wire);
      } else {
        assert log[i] == o.events[i - |s.log|];
        assert RunAgrees(o.db, id, o.run.value);
      }
    }
  }

  lemma OtherKey(s: Sys, id: TradeId, key: string, o: Outcome, next: TradeId, j: TradeId)
    requires Followable(s, id, key, o, next) && j in s.runs && j != id
    ensures s.runs[j].request.key != key
  {
    assert Keyed(s.db, s.runs[j].request.key, j) && Keyed(o.db, key, id);
    assert OnlyTouches(s.db, o.db, id);
  }

  lemma EventsElsewhere(s: Sys, key: string, o: Outcome, other: string)
    requires EventsOk(s, key, o) && other != key
    ensures NeverSigned(o.events, other) && NeverBroadcast(o.events, other)
  {
  }

  /** The execution's own early calls. */
  lemma OwnEvents(s: Sys, key: string, o: Outcome)
    requires EventsOk(s, key, o) && StillEarly(s, key, o) && o.run.Some?
    ensures Presign(o.run.value.phase) ==> NeverSigned(s.log + o.events, key) && NeverBroadcast(s.log + o.events, key)
    ensures o.run.value.phase.Signing? ==> NeverBroadcast(s.log + o.events, key)
  {
    NeverAppend(s.log, o.events, key);
  }

  /** The other executions hold other keys, so nothing logged here concerns them. */
  lemma FollowOthers(s: Sys, id: TradeId, key: string, o: Outcome, next: TradeId)
    requires Followable(s, id, key, o, next) && EventsOk(s, key, o) && StillEarly(s, key, o) && LogOk(s)
    ensures forall j | j in Follow(s, id, o).runs && Presign(Follow(s, id, o).runs[j].phase) ::
              NeverSigned(s.log + o.events, Follow(s, id, o).runs[j].request.key)
    ensures forall j | j in Follow(s, id, o).runs
                       && (Presign(Follow(s, id, o).runs[j].phase) || Follow(s, id, o).runs[j].phase.Signing?) ::
              NeverBroadcast(s.log + o.events, Follow(s, id, o).runs[j].request.key)
  {
    var runs := Follow(s, id, o).runs;
    forall j | j in runs && (Presign(runs[j].phase) || runs[j].phase.Signing?)
      ensures NeverBroadcast(s.log + o.events, runs[j].request.key)
      ensures Presign(runs[j].phase) ==> NeverSigned(s.log + o.events, runs[j].request.key)
    {
      if j == id {
        OwnEvents(s, key, o);
      } else {
        OtherKey(s, id, key, o, next, j);
        EventsElsewhere(s, key, o, runs[j].request.key);
        NeverAppend(s.log, o.events, runs[j].request.key);
      }
    }
  }

  lemma NeverAppend(log: seq<Event>, events: seq<Event>, key: string)
    ensures NeverSigned(log, key) && NeverSigned(events, key) ==> NeverSigned(log + events, key)
    ensures NeverBroadcast(log, key) && NeverBroadcast(events, key) ==> NeverBroadcast(log + events, key)
  {
  }

  lemma FollowLog(s: Sys, id: TradeId, key: string, o: Outcome, next: TradeId)
    requires Followable(s, id, key, o, next) && LogOk(s)
    requires EventsOk(s, key, o) && StillEarly(s, key, o)
    ensures LogOk(Follow(s, id, o).(next := next))
  {
    FollowUnique(s, id, key, o);
    FollowHolds(s, id, key, o, next);
    FollowOthers(s, id, key, o, next);
  }

  lemma ResumeEvents(s: Sys, id: TradeId, answer: Answer)
    requires LogOk(s) && id in s.runs
    ensures EventsOk(s, s.runs[id].request.key, Resume(s.db, id, s.runs[id], answer))
    ensures StillEarly(s, s.runs[id].request.key, Resume(s.db, id, s.runs[id], answer))
  {
  }

  lemma BeginOk(s: Sys, q: Request, now: int)
    requires TablesOk(s.db, s.next) && q.key !in s.db.idempotency
    ensures SegmentOk(s.db, s.next, q.key, Begin(s.db, s.next, q, now))
    ensures Keyed(Begin(s.db, s.next, q, now).db, q.key, s.next)
  {
    var o := Begin(s.db, s.next, q, now);
    assert s.next !in s.db.trades;
    assert o.db == ClaimIdempotency(s.db, q.key, s.next);
  }

  lemma BeginEvents(s: Sys, q: Request, now: int)
    requires LogOk(s) && q.key !in s.db.idempotency
    ensures EventsOk(s, q.key, Begin(s.db, s.next, q, now))
    ensures StillEarly(s, q.key, Begin(s.db, s.next, q, now))
  {
  }

  lemma ExecuteKeeps(s: Sys, q: Request, now: int)
    requires Inv(s)
    ensures Inv(Apply(s, Execute(q, now))) && RowsEvolve(s.db, Apply(s, Execute(q, now)).db)
  {
    var o := Begin(s.db, s.next, q, now);
    if q.key in s.db.idempotency {
      assert s.runs - {s.next} == s.runs;
      assert s.log + [] == s.log;
    } else {
      BeginOk(s, q, now);
      BeginEvents(s, q, now);
      FollowTables(s, s.next, q.key, o, s.next + 1);
      FollowRuns(s, s.next, q.key, o, s.next + 1);
      FollowLog(s, s.next, q.key, o, s.next + 1);
    }
  }

  lemma AnsweredKeeps(s: Sys, id: TradeId, answer: Answer)
    requires Inv(s)
    ensures Inv(Apply(s, Answered(id, answer))) && RowsEvolve(s.db, Apply(s, Answered(id, answer)).db)
  {
    if id in s.runs {
      var run := s.runs[id];
      var key := run.request.key;
      var o := Resume(s.db, id, run, answer);
      ResumeOk(s.db, id, run, answer);
      ResumeEvents(s, id, answer);
      FollowTables(s, id, key, o, s.next);
      FollowRuns(s, id, key, o, s.next);
      FollowLog(s, id, key, o, s.next);
    }
  }

  lemma CrashKeeps(s: Sys)
    requires Inv(s)
    ensures Inv(Apply(s, Crash))
  {
  }

  lemma StartRecoveryKeeps(s: Sys, order: seq<TradeId>)
    requires Inv(s) && Quiet(s)
    ensures Inv(Apply(s, StartRecovery(order)))
  {
    var t := Apply(s, StartRecovery(order));
    if s.recovering == [] && ListsSent(s.db, order) {
      forall i | 0 <= i < |t.recovering| ensures EntryOk(t, t.recovering[i]) {
        assert t.recovering[i] == EntryOf(s.db, order[i]);
        assert order[i] in s.runs ==> RunAgrees(s.db, order[i], s.runs[order[i]]);
      }
      forall id | id in t.db.trades && t.db.trades[id].state == Sent ensures Listed(t.recovering, id) {
        var i :| 0 <= i < |order| && order[i] == id;
        assert t.recovering[i].id == id;
      }
    }
  }

  /** What a settlement must leave of the trade it settles. */
  predicate SettledOk(a: Db, b: Db, id: TradeId) {
    && OnlyTouches(a, b, id) && b.idempotency == a.idempotency
    && id in a.trades && id in b.trades && RowAgrees(b, id) && AllBacked(b, id)
    && RowEvolves(a.trades[id], b.trades[id]) && Terminal(b.trades[id].state)
  }

  lemma SettleByRelease(db: Db, id: TradeId, state: TradeState, code: string)
    requires id in db.trades && db.trades[id].state == Sent && RowAgrees(db, id) && AllBacked(db, id)
    requires state == Errored || state == Expired
    ensures SettledOk(db, Fail(ReleaseOptional(db, db.trades[id].reservationId), id, state, code), id)
  {
    ReleaseTouches(db, id, db.trades[id].reservationId);
  }

  lemma SettleByConsume(db: Db, id: TradeId)
    requires id in db.trades && db.trades[id].state == Sent && RowAgrees(db, id) && AllBacked(db, id)
    ensures SettledOk(db, SetState(ConsumeOptional(db, db.trades[id].reservationId), id, Confirmed), id)
  {
    ConsumeTouches(db, id, db.trades[id].reservationId);
  }

  lemma SettleEntryOk(db: Db, entry: JobEntry, status: ConfirmStatus)
    requires entry.id in db.trades && db.trades[entry.id].state == Sent
    requires EntryOf(db, entry.id) == entry && RowAgrees(db, entry.id) && AllBacked(db, entry.id)
    ensures SettledOk(db, Settle(db, entry, status), entry.id)
  {
    if NoSignature(entry) {
      SettleByRelease(db, entry.id, Errored, "RECONCILE_NO_SIGNATURE");
    } else if status == IsConfirmed {
      SettleByConsume(db, entry.id);
    } else if status == IsExpired {
      SettleByRelease(db, entry.id, Expired, "RECONCILE_EXPIRED");
    } else {
      SettleByRelease(db, entry.id, Errored, "RECONCILE_FAILED");
    }
  }

  lemma RecoveryTables(s: Sys, db: Db, id: TradeId)
    requires TablesOk(s.db, s.next) && id in s.db.trades && id in db.trades && OnlyTouches(s.db, db, id)
    requires db.idempotency == s.db.idempotency && RowAgrees(db, id) && AllBacked(db, id)
    requires RowEvolves(s.db.trades[id], db.trades[id])
    ensures TablesOk(db, s.next) && RowsEvolve(s.db, db)
  {
    forall j | j in db.trades ensures RowAgrees(db, j) && j < s.next && Keyed(db, db.trades[j].idempotencyKey, j) {
      assert j in s.db.trades && RowAgrees(s.db, j);
    }
    forall r | 0 <= r < |db.spends| ensures db.spends[r].tradeId < s.next && Backed(db, r) {
      if db.spends[r].tradeId != id {
        assert Backed(s.db, r);
      }
    }
  }

  lemma RecoveryRuns(s: Sys, t: Sys)
    requires RunsOk(s) && JobOk(s) && s.recovering != []
    requires t == s.(db := t.db, recovering := s.recovering[1..])
    requires OnlyTouches(s.db, t.db, s.recovering[0].id) && t.db.idempotency == s.db.idempotency
    ensures RunsOk(t) && JobOk(t)
  {
    var entry := s.recovering[0];
    assert EntryOk(s, entry);
    forall j | j in t.runs ensures RunAgrees(t.db, j, t.runs[j]) && Keyed(t.db, t.runs[j].request.key, j) {
      assert j != entry.id && RunAgrees(s.db, j, s.runs[j]);
    }
    forall i | 0 <= i < |t.recovering| ensures EntryOk(t, t.recovering[i]) {
      assert t.recovering[i] == s.recovering[i + 1] && EntryOk(s, s.recovering[i + 1]);
    }
  }

  lemma RecoveryKeeps(s: Sys, reply: RecoveryAnswer)
    requires Inv(s)
    ensures Inv(Apply(s, RecoveryAnswered(reply)))
    ensures RowsEvolve(s.db, Apply(s, RecoveryAnswered(reply)).db)
  {
    if s.recovering != [] && !(reply.ConfirmerRejects? && !NoSignature(s.recovering[0])) {
      var entry := s.recovering[0];
      var status := if reply.Says? then reply.status else IsFailed;
      var t := Apply(s, RecoveryAnswered(reply));
      assert EntryOk(s, entry) && RowAgrees(s.db, entry.id);
      SettleEntryOk(s.db, entry, status);
      RecoveryTables(s, t.db, entry.id);
      RecoveryRuns(s, t);
      RecoverySentOk(s, t);
      RecoveryLogOk(s, t);
    }
  }

  lemma RecoverySentOk(s: Sys, t: Sys)
    requires SentOk(s) && s.recovering != [] && t.recovering == s.recovering[1..] && t.runs == s.runs && t.swept == s.swept
    requires OnlyTouches(s.db, t.db, s.recovering[0].id)
    requires s.recovering[0].id in t.db.trades ==> Terminal(t.db.trades[s.recovering[0].id].state)
    ensures SentOk(t)
  {
    if t.swept {
      forall j | j in t.db.trades && t.db.trades[j].state == Sent ensures j in t.runs || Listed(t.recovering, j) {
        assert j != s.recovering[0].id;
        if j !in s.runs {
          assert Listed(s.recovering, j);
          var i :| 0 <= i < |s.recovering| && s.recovering[i].id == j;
          assert t.recovering[i - 1].id == j;
        }
      }
    }
  }

  lemma RecoveryLogOk(s: Sys, t: Sys)
    requires LogOk(s) && t.log == s.log && t.runs == s.runs
    requires t.db.idempotency == s.db.idempotency && RowsEvolve(s.db, t.db)
    ensures LogOk(t)
  {
    forall i | 0 <= i < |s.log| && s.log[i].BroadcastRequested? ensures RowHolds(t.db, s.log[i].key, s.log[i].wire) {
      assert RowHolds(s.db, s.log[i].key, s.log[i].wire);
    }
  }

  lemma StepKeeps(s: Sys, step: Step)
    requires Inv(s) && (step.StartRecovery? ==> Quiet(s))
    ensures Inv(Apply(s, step)) && RowsEvolve(s.db, Apply(s, step).db)
  {
    match step
    case Execute(q, now) => ExecuteKeeps(s, q, now);
    case Answered(id, answer) => AnsweredKeeps(s, id, answer);
    case Crash => CrashKeeps(s);
    case StartRecovery(order) => StartRecoveryKeeps(s, order);
    case RecoveryAnswered(reply) => RecoveryKeeps(s, reply);
  }

  lemma ReachOneMore(a: Db, b: Db, c: Db)
    requires RowsEvolve(a, b) && RowsReach(b, c)
    ensures RowsReach(a, c)
  {
  }

  lemma {:induction false} RunKeeps(s: Sys, steps: seq<Step>)
    requires Inv(s) && BootRecovery(s, steps)
    ensures Inv(Exec(s, steps)) && RowsReach(s.db, Exec(s, steps).db)
    decreases |steps|
  {
    if steps != [] {
      StepKeeps(s, steps[0]);
      RunKeeps(Apply(s, steps[0]), steps[1..]);
      ReachOneMore(s.db, Apply(s, steps[0]).db, Exec(s, steps).db);
    }
  }
}
