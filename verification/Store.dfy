/**
 * The kernel's single-writer store (src/kernel/store.ts).
 *
 * `Db` is the value of the tables; each statement or BEGIN IMMEDIATE block of the source is a function
 * on it. The class `KernelStore` updates the tables in place and is proved against those functions.
 * Trade and reservation ids stand for the source's random ids: a trade id is supplied by the caller, a
 * reservation id is the index of its row.
 */
module Store {
  import opened Options
  import opened Money
  import opened PolicyEngine

  const HOUR_MS := 3_600_000
  const DAY_MS := 86_400_000

  type TradeId = nat
  type ReservationId = nat

  datatype SpendState = Held | Consumed | Released
  datatype Spend = Spend(tradeId: TradeId, bucket: QuoteBucket, amount: int, state: SpendState, createdAt: int)

  datatype TradeState = Reserved | Sent | Confirmed | Expired | Errored

  predicate Terminal(state: TradeState) {
    state == Confirmed || state == Expired || state == Errored
  }

  datatype TradeRow = TradeRow(
    idempotencyKey: string,
    state: TradeState,
    signature: Option<string>,
    signedWire: Option<string>,
    lastValidBlockHeight: int,
    reservationId: Option<ReservationId>,
    error: Option<string>)

  datatype Db = Db(
    spends: seq<Spend>,
    trades: map<TradeId, TradeRow>,
    idempotency: map<string, TradeId>)

  const EMPTY_DB := Db([], map[], map[])

  datatype DenyReason = PerTrade | PerHour | PerDay
  datatype ReserveOutcome =
    | Granted(reservationId: ReservationId, usedHour: int, usedDay: int)
    | Denied(reason: DenyReason, cap: int, would: int)

  // ---- window sums -------------------------------------------------------------------------------

  predicate Active(row: Spend, bucket: QuoteBucket) {
    row.bucket == bucket && row.state != Released
  }

  /** What a row adds to a sum over stamps from `lo` on. */
  function SinceAmount(row: Spend, bucket: QuoteBucket, lo: int): int {
    if Active(row, bucket) && row.createdAt >= lo then row.amount else 0
  }

  function SumActive(spends: seq<Spend>, bucket: QuoteBucket, since: int): int {
    if spends == [] then 0
    else SumActive(spends[..|spends| - 1], bucket, since) + SinceAmount(spends[|spends| - 1], bucket, since)
  }

  /** Reserved and consumed spend stamped inside the closed window [lo, hi]. */
  function SumWindow(spends: seq<Spend>, bucket: QuoteBucket, lo: int, hi: int): int {
    if spends == [] then 0
    else
      var last := spends[|spends| - 1];
      SumWindow(spends[..|spends| - 1], bucket, lo, hi)
      + if last.createdAt <= hi then SinceAmount(last, bucket, lo) else 0
  }

  predicate NonNegativeAmounts(spends: seq<Spend>) {
    forall i | 0 <= i < |spends| :: spends[i].amount >= 0
  }

  /** A closed window never holds more than a later-starting open-ended sum. */
  lemma {:induction false} WindowBelowActive(spends: seq<Spend>, bucket: QuoteBucket, lo: int, hi: int, since: int)
    requires NonNegativeAmounts(spends) && since <= lo
    ensures SumWindow(spends, bucket, lo, hi) <= SumActive(spends, bucket, since)
  {
    if spends != [] {
      WindowBelowActive(spends[..|spends| - 1], bucket, lo, hi, since);
    }
  }

  /** When nothing is stamped after `hi`, the open-ended sum is a closed window. */
  lemma {:induction false} ActiveIsWindow(spends: seq<Spend>, bucket: QuoteBucket, since: int, hi: int)
    requires forall i | 0 <= i < |spends| && Active(spends[i], bucket) :: spends[i].createdAt <= hi
    ensures SumActive(spends, bucket, since) == SumWindow(spends, bucket, since, hi)
  {
    if spends != [] {
      ActiveIsWindow(spends[..|spends| - 1], bucket, since, hi);
    }
  }

  /** Consuming a held row leaves every window as it was; releasing one never raises a window. */
  lemma {:induction false} WindowAfterUpdate(spends: seq<Spend>, r: nat, state: SpendState,
                                             bucket: QuoteBucket, lo: int, hi: int)
    requires r < |spends| && NonNegativeAmounts(spends)
    requires state == Released || spends[r].state != Released
    ensures SumWindow(spends[r := spends[r].(state := state)], bucket, lo, hi)
         <= SumWindow(spends, bucket, lo, hi)
  {
    var n := |spends| - 1;
    var updated := spends[r := spends[r].(state := state)];
    if r < n {
      WindowAfterUpdate(spends[..n], r, state, bucket, lo, hi);
      assert updated[..n] == spends[..n][r := spends[r].(state := state)];
    } else {
      assert updated[..n] == spends[..n];
    }
  }

  // ---- statements --------------------------------------------------------------------------------

  function ClaimIdempotency(db: Db, key: string, id: TradeId): Db {
    if key in db.idempotency then db else db.(idempotency := db.idempotency[key := id])
  }

  /** The cap check and the insert of one BEGIN IMMEDIATE block. */
  function ReserveOutcomeOf(db: Db, bucket: QuoteBucket, amount: int, caps: SpendCaps, now: int): ReserveOutcome {
    var usedHour := SumActive(db.spends, bucket, now - HOUR_MS);
    var usedDay := SumActive(db.spends, bucket, now - DAY_MS);
    if amount > caps.perTrade then Denied(PerTrade, caps.perTrade, amount)
    else if usedHour + amount > caps.perHour then Denied(PerHour, caps.perHour, usedHour + amount)
    else if usedDay + amount > caps.perDay then Denied(PerDay, caps.perDay, usedDay + amount)
    else Granted(|db.spends|, usedHour, usedDay)
  }

  function Reserve(db: Db, bucket: QuoteBucket, amount: int, caps: SpendCaps, id: TradeId, now: int): Db {
    if ReserveOutcomeOf(db, bucket, amount, caps, now).Granted?
    then db.(spends := db.spends + [Spend(id, bucket, amount, Held, now)])
    else db
  }

  function Release(db: Db, r: ReservationId): Db {
    if r < |db.spends| && db.spends[r].state == Held
    then db.(spends := db.spends[r := db.spends[r].(state := Released)])
    else db
  }

  /** No state test: a released row would become active again. */
  function Consume(db: Db, r: ReservationId): Db {
    if r < |db.spends| then db.(spends := db.spends[r := db.spends[r].(state := Consumed)]) else db
  }

  predicate InsertConflict(db: Db, id: TradeId, key: string) {
    id in db.trades || exists j | j in db.trades :: db.trades[j].idempotencyKey == key
  }

  function InsertTrade(db: Db, id: TradeId, row: TradeRow): Db {
    if InsertConflict(db, id, row.idempotencyKey) then db else db.(trades := db.trades[id := row])
  }

  function NewRow(key: string, lastValidBlockHeight: int, reservationId: Option<ReservationId>): TradeRow {
    TradeRow(key, Reserved, None, None, lastValidBlockHeight, reservationId, None)
  }

  function PersistSigned(db: Db, id: TradeId, wire: string, signature: string): Db {
    if id in db.trades
    then db.(trades := db.trades[id := db.trades[id].(signedWire := Some(wire), signature := Some(signature))])
    else db
  }

  function SetSignature(db: Db, id: TradeId, signature: string): Db {
    if id in db.trades
    then db.(trades := db.trades[id := db.trades[id].(signature := Some(signature))])
    else db
  }

  function SetState(db: Db, id: TradeId, state: TradeState): Db {
    if id in db.trades then db.(trades := db.trades[id := db.trades[id].(state := state)]) else db
  }

  function Fail(db: Db, id: TradeId, state: TradeState, error: string): Db {
    if id in db.trades
    then db.(trades := db.trades[id := db.trades[id].(state := state, error := Some(error))])
    else db
  }

  function ReleaseOptional(db: Db, r: Option<ReservationId>): Db {
    if r.Some? then Release(db, r.value) else db
  }

  function ConsumeOptional(db: Db, r: Option<ReservationId>): Db {
    if r.Some? then Consume(db, r.value) else db
  }

  /** An order the database may return the `sent` rows in: each exactly once. */
  predicate ListsSent(db: Db, order: seq<TradeId>) {
    && (forall i, j | 0 <= i < j < |order| :: order[i] != order[j])
    && (forall i | 0 <= i < |order| :: order[i] in db.trades && db.trades[order[i]].state == Sent)
    && (forall id | id in db.trades && db.trades[id].state == Sent :: id in order)
  }

  // ---- the store object --------------------------------------------------------------------------

  class KernelStore {
    var spends: seq<Spend>
    var trades: map<TradeId, TradeRow>
    var idempotency: map<string, TradeId>

    function Tables(): Db
      reads this
    {
      Db(spends, trades, idempotency)
    }

    constructor ()
      ensures Tables() == EMPTY_DB
    {
      spends, trades, idempotency := [], map[], map[];
    }

    method SumActiveRows(bucket: QuoteBucket, since: int) returns (sum: int)
      ensures sum == SumActive(spends, bucket, since)
    {
      sum := 0;
      for i := 0 to |spends|
        invariant sum == SumActive(spends[..i], bucket, since)
      {
        assert spends[..i + 1][..i] == spends[..i];
        if Active(spends[i], bucket) && spends[i].createdAt >= since {
          sum := sum + spends[i].amount;
        }
      }
      assert spends[..|spends|] == spends;
    }

    method Usage(bucket: QuoteBucket, now: int) returns (hour: int, day: int)
      ensures hour == SumActive(spends, bucket, now - HOUR_MS)
      ensures day == SumActive(spends, bucket, now - DAY_MS)
    {
      hour := SumActiveRows(bucket, now - HOUR_MS);
      day := SumActiveRows(bucket, now - DAY_MS);
    }

    method Claim(key: string, id: TradeId) returns (claimed: bool)
      modifies this`idempotency
      ensures claimed == (key !in old(idempotency))
      ensures Tables() == ClaimIdempotency(old(Tables()), key, id)
    {
      claimed := key !in idempotency;
      if claimed {
        idempotency := idempotency[key := id];
      }
    }

    method ReserveSpend(bucket: QuoteBucket, amount: int, caps: SpendCaps, id: TradeId, now: int)
      returns (outcome: ReserveOutcome)
      modifies this`spends
      ensures outcome == ReserveOutcomeOf(old(Tables()), bucket, amount, caps, now)
      ensures Tables() == Reserve(old(Tables()), bucket, amount, caps, id, now)
    {
      var usedHour := SumActiveRows(bucket, now - HOUR_MS);
      var usedDay := SumActiveRows(bucket, now - DAY_MS);
      if amount > caps.perTrade {
        return Denied(PerTrade, caps.perTrade, amount);
      }
      if usedHour + amount > caps.perHour {
        return Denied(PerHour, caps.perHour, usedHour + amount);
      }
      if usedDay + amount > caps.perDay {
        return Denied(PerDay, caps.perDay, usedDay + amount);
      }
      outcome := Granted(|spends|, usedHour, usedDay);
      spends := spends + [Spend(id, bucket, amount, Held, now)];
    }

    method ReleaseReservation(r: ReservationId)
      modifies this`spends
      ensures Tables() == Release(old(Tables()), r)
    {
      if r < |spends| && spends[r].state == Held {
        spends := spends[r := spends[r].(state := Released)];
      }
    }

    method ConsumeReservation(r: ReservationId)
      modifies this`spends
      ensures Tables() == Consume(old(Tables()), r)
    {
      if r < |spends| {
        spends := spends[r := spends[r].(state := Consumed)];
      }
    }

    /** `ok` is false where a PRIMARY KEY or UNIQUE constraint makes the statement throw. */
    method Insert(id: TradeId, row: TradeRow) returns (ok: bool)
      modifies this`trades
      ensures ok == !InsertConflict(old(Tables()), id, row.idempotencyKey)
      ensures Tables() == InsertTrade(old(Tables()), id, row)
    {
      ok := !InsertConflict(Tables(), id, row.idempotencyKey);
      if ok {
        trades := trades[id := row];
      }
    }

    method Persist(id: TradeId, wire: string, signature: string)
      modifies this`trades
      ensures Tables() == PersistSigned(old(Tables()), id, wire, signature)
    {
      if id in trades {
        trades := trades[id := trades[id].(signedWire := Some(wire), signature := Some(signature))];
      }
    }

    method WriteSignature(id: TradeId, signature: string)
      modifies this`trades
      ensures Tables() == SetSignature(old(Tables()), id, signature)
    {
      if id in trades {
        trades := trades[id := trades[id].(signature := Some(signature))];
      }
    }

    method WriteState(id: TradeId, state: TradeState)
      modifies this`trades
      ensures Tables() == SetState(old(Tables()), id, state)
    {
      if id in trades {
        trades := trades[id := trades[id].(state := state)];
      }
    }

    method WriteFailure(id: TradeId, state: TradeState, error: string)
      modifies this`trades
      ensures Tables() == Fail(old(Tables()), id, state, error)
    {
      if id in trades {
        trades := trades[id := trades[id].(state := state, error := Some(error))];
      }
    }

    /** The reconciler's work list: every `sent` row exactly once, in an order of the database's choosing. */
    method PendingSent() returns (order: seq<TradeId>)
      ensures ListsSent(Tables(), order)
    {
      order := [];
      var left := trades.Keys;
      while left != {}
        invariant left <= trades.Keys
        invariant forall i, j | 0 <= i < j < |order| :: order[i] != order[j]
        invariant forall i | 0 <= i < |order| :: order[i] in trades && order[i] !in left && trades[order[i]].state == Sent
        invariant forall id | id in trades && id !in left && trades[id].state == Sent :: id in order
        decreases |left|
      {
        var id :| id in left;
        left := left - {id};
        if trades[id].state == Sent {
          order := order + [id];
        }
      }
    }
  }
}
