/**
 * The sliding-window spend cap over every run of the money path: whatever interleaves, and whatever the
 * clock says at each `execute`, no closed window of an hour or a day holds more reserved and consumed
 * spend than its cap.
 */
module SpendCap {
  import opened Options
  import opened Basics
  import opened Money
  import opened PolicyEngine
  import opened Store
  import opened Gateway
  import opened GatewayInvariants
  import opened GatewayTheorems

  /** The largest caps any policy of the run sets, per bucket; with fixed caps, those caps. */
  datatype Limits = Limits(sol: SpendCaps, usdc: SpendCaps)

  function LimitOf(limits: Limits, bucket: QuoteBucket): SpendCaps {
    if bucket == Sol then limits.sol else limits.usdc
  }

  predicate CapsWithin(caps: SpendCaps, limit: SpendCaps) {
    caps.perTrade <= limit.perTrade && caps.perHour <= limit.perHour && caps.perDay <= limit.perDay
  }

  predicate PolicyWithin(policy: PolicyConfig, limits: Limits) {
    CapsWithin(policy.capsSol, limits.sol) && CapsWithin(policy.capsUsdc, limits.usdc)
  }

  predicate PoliciesWithin(steps: seq<Step>, limits: Limits) {
    forall i | 0 <= i < |steps| && steps[i].Execute? :: PolicyWithin(steps[i].request.policy, limits)
  }

  predicate WindowsCapped(spends: seq<Spend>, bucket: QuoteBucket, limit: SpendCaps, start: int) {
    && SumWindow(spends, bucket, start, start + HOUR_MS) <= Max(0, limit.perHour)
    && SumWindow(spends, bucket, start, start + DAY_MS) <= Max(0, limit.perDay)
  }

  ghost predicate SpendsCapped(spends: seq<Spend>, limits: Limits) {
    && NonNegativeAmounts(spends)
    && (forall r | 0 <= r < |spends| :: spends[r].amount <= LimitOf(limits, spends[r].bucket).perTrade)
    && (forall bucket, start :: WindowsCapped(spends, bucket, LimitOf(limits, bucket), start))
  }

  ghost predicate CapInv(s: Sys, limits: Limits) {
    && SpendsCapped(s.db.spends, limits)
    && (forall id | id in s.runs :: PolicyWithin(s.runs[id].request.policy, limits))
  }

  lemma ReserveKeepsCap(db: Db, bucket: QuoteBucket, amount: nat, caps: SpendCaps, id: TradeId, now: int, limits: Limits)
    requires SpendsCapped(db.spends, limits) && CapsWithin(caps, LimitOf(limits, bucket))
    ensures SpendsCapped(Reserve(db, bucket, amount, caps, id, now).spends, limits)
  {
    var after := Reserve(db, bucket, amount, caps, id, now).spends;
    if after != db.spends {
      assert after[..|after| - 1] == db.spends;
      forall b, start ensures WindowsCapped(after, b, LimitOf(limits, b), start) {
        assert WindowsCapped(db.spends, b, LimitOf(limits, b), start);
        if b == bucket && start <= now <= start + HOUR_MS {
          WindowBelowActive(db.spends, b, start, start + HOUR_MS, now - HOUR_MS);
        }
        if b == bucket && start <= now <= start + DAY_MS {
          WindowBelowActive(db.spends, b, start, start + DAY_MS, now - DAY_MS);
        }
      }
    }
  }

  lemma ReleaseKeepsCap(db: Db, r: Option<ReservationId>, limits: Limits)
    requires SpendsCapped(db.spends, limits)
    ensures SpendsCapped(ReleaseOptional(db, r).spends, limits)
  {
    if r.Some? && r.value < |db.spends| && db.spends[r.value].state == Held {
      UpdateKeepsCap(db.spends, r.value, Released, limits);
    }
  }

  /** Consuming keeps the cap because the reservation is still held, never already released. */
  lemma ConsumeKeepsCap(db: Db, r: Option<ReservationId>, limits: Limits)
    requires SpendsCapped(db.spends, limits)
    requires r.Some? && r.value < |db.spends| ==> db.spends[r.value].state != Released
    ensures SpendsCapped(ConsumeOptional(db, r).spends, limits)
  {
    if r.Some? && r.value < |db.spends| {
      UpdateKeepsCap(db.spends, r.value, Consumed, limits);
    }
  }

  lemma UpdateKeepsCap(spends: seq<Spend>, r: nat, state: SpendState, limits: Limits)
    requires SpendsCapped(spends, limits) && r < |spends|
    requires state == Released || spends[r].state != Released
    ensures SpendsCapped(spends[r := spends[r].(state := state)], limits)
  {
    var after := spends[r := spends[r].(state := state)];
    forall b, start ensures WindowsCapped(after, b, LimitOf(limits, b), start) {
      assert WindowsCapped(spends, b, LimitOf(limits, b), start);
      WindowAfterUpdate(spends, r, state, b, start, start + HOUR_MS);
      WindowAfterUpdate(spends, r, state, b, start, start + DAY_MS);
    }
  }

  lemma ResumeKeepsCap(db: Db, id: TradeId, run: Run, answer: Answer, limits: Limits)
    requires RunAgrees(db, id, run) && SpendsCapped(db.spends, limits)
    requires id in db.trades ==> RowAgrees(db, id)
    requires PolicyWithin(run.request.policy, limits)
    ensures SpendsCapped(Resume(db, id, run, answer).db.spends, limits)
  {
    var q := run.request;
    ReleaseKeepsCap(db, run.reservationId, limits);
    if run.phase.Inspecting? {
      var bucket := QuoteBucketFor(q.intent.inputMint);
      if bucket.Some? {
        AcceptedAmount(q.policy, q.intent, GuardOptions(false, q.confirmedByUser));
        ReserveKeepsCap(db, bucket.value, q.intent.inputAmount, CapsFor(q.policy, bucket.value), id, run.now, limits);
      }
    } else if run.phase.Settling? {
      ConsumeKeepsCap(db, run.reservationId, limits);
    }
  }

  lemma AnsweredKeepsCap(s: Sys, id: TradeId, answer: Answer, limits: Limits)
    requires TablesOk(s.db, s.next) && RunsOk(s) && CapInv(s, limits) && id in s.runs
    ensures CapInv(Apply(s, Answered(id, answer)), limits)
  {
    var run := s.runs[id];
    assert RunAgrees(s.db, id, run);
    assert id in s.db.trades ==> RowAgrees(s.db, id);
    ResumeKeepsCap(s.db, id, run, answer, limits);
    ResumeKeepsRequest(s.db, id, run, answer);
  }

  lemma ResumeKeepsRequest(db: Db, id: TradeId, run: Run, answer: Answer)
    ensures var o := Resume(db, id, run, answer); o.run.Some? ==> o.run.value.request == run.request
  {
  }

  lemma RecoveryKeepsCap(s: Sys, reply: RecoveryAnswer, limits: Limits)
    requires TablesOk(s.db, s.next) && JobOk(s) && CapInv(s, limits)
    ensures CapInv(Apply(s, RecoveryAnswered(reply)), limits)
  {
    if s.recovering != [] {
      var entry := s.recovering[0];
      assert EntryOk(s, entry) && RowAgrees(s.db, entry.id);
      ReleaseKeepsCap(s.db, entry.reservationId, limits);
      ConsumeKeepsCap(s.db, entry.reservationId, limits);
    }
  }

  lemma StepKeepsCap(s: Sys, step: Step, limits: Limits)
    requires Inv(s) && CapInv(s, limits)
    requires step.Execute? ==> PolicyWithin(step.request.policy, limits)
    ensures CapInv(Apply(s, step), limits)
  {
    match step
    case Answered(id, answer) =>
      if id in s.runs {
        AnsweredKeepsCap(s, id, answer, limits);
      }
    case RecoveryAnswered(reply) => RecoveryKeepsCap(s, reply, limits);
    case _ =>
  }

  lemma {:induction false} RunKeepsCap(s: Sys, steps: seq<Step>, limits: Limits)
    requires Inv(s) && CapInv(s, limits)
    requires BootRecovery(s, steps) && PoliciesWithin(steps, limits)
    ensures CapInv(Exec(s, steps), limits)
    decreases |steps|
  {
    if steps != [] {
      StepKeeps(s, steps[0]);
      StepKeepsCap(s, steps[0], limits);
      assert PoliciesWithin(steps[1..], limits) by {
        forall i | 0 <= i < |steps[1..]| && steps[1..][i].Execute? ensures PolicyWithin(steps[1..][i].request.policy, limits) {
          assert steps[1..][i] == steps[i + 1];
        }
      }
      RunKeepsCap(Apply(s, steps[0]), steps[1..], limits);
    }
  }

  /** What is held and spent in a bucket under the stamps from `lo` to `hi`. */
  function SpentBetween(spends: seq<Spend>, bucket: QuoteBucket, lo: int, hi: int): int {
    if spends == [] then 0
    else
      var row := spends[|spends| - 1];
      SpentBetween(spends[..|spends| - 1], bucket, lo, hi) +
      if row.bucket == bucket && row.state in {Held, Consumed} && lo <= row.createdAt <= hi then row.amount else 0
  }

  lemma {:induction false} SpentIsWindow(spends: seq<Spend>, bucket: QuoteBucket, lo: int, hi: int)
    ensures SpentBetween(spends, bucket, lo, hi) == SumWindow(spends, bucket, lo, hi)
  {
    if spends != [] {
      SpentIsWindow(spends[..|spends| - 1], bucket, lo, hi);
    }
  }

  /**
   * A reservation is granted exactly where the amount fits the trade cap, and together with what was spent since an
   * hour and since a day before its stamp, however late it was stamped, the hour and the day cap.
   */
  lemma GrantedIffFits(db: Db, bucket: QuoteBucket, amount: int, caps: SpendCaps, now: int, latest: int)
    requires forall i | 0 <= i < |db.spends| :: db.spends[i].createdAt <= latest
    ensures ReserveOutcomeOf(db, bucket, amount, caps, now).Granted? <==>
      && amount <= caps.perTrade
      && SpentBetween(db.spends, bucket, now - 3_600_000, latest) + amount <= caps.perHour
      && SpentBetween(db.spends, bucket, now - 86_400_000, latest) + amount <= caps.perDay
  {
    ActiveIsWindow(db.spends, bucket, now - HOUR_MS, latest);
    ActiveIsWindow(db.spends, bucket, now - DAY_MS, latest);
    SpentIsWindow(db.spends, bucket, now - HOUR_MS, latest);
    SpentIsWindow(db.spends, bucket, now - DAY_MS, latest);
  }

  /** The sliding-window cap: any hour and any day, wherever they start, and any single spend. */
  lemma SlidingWindowCap(steps: seq<Step>, limits: Limits, bucket: QuoteBucket, start: int)
    requires BootRecovery(INIT, steps) && PoliciesWithin(steps, limits)
    ensures var spends := Exec(INIT, steps).db.spends;
      && SpentBetween(spends, bucket, start, start + 3_600_000) <= Max(0, LimitOf(limits, bucket).perHour)
      && SpentBetween(spends, bucket, start, start + 86_400_000) <= Max(0, LimitOf(limits, bucket).perDay)
      && forall r | 0 <= r < |spends| :: spends[r].amount <= LimitOf(limits, spends[r].bucket).perTrade
  {
    InitInv();
    RunKeepsCap(INIT, steps, limits);
    var spends := Exec(INIT, steps).db.spends;
    assert WindowsCapped(spends, bucket, LimitOf(limits, bucket), start);
    SpentIsWindow(spends, bucket, start, start + HOUR_MS);
    SpentIsWindow(spends, bucket, start, start + DAY_MS);
  }

  // ---- exits that spend nothing ------------------------------------------------------------------

  /** No active row of the bucket carries a stamp later than `now`. */
  predicate NoLaterStamp(spends: seq<Spend>, bucket: QuoteBucket, now: int) {
    forall i | 0 <= i < |spends| && Active(spends[i], bucket) :: spends[i].createdAt <= now
  }

  /** The preview's own cap test, on usage it read: per-trade, hour and day in that order. */
  function CapBreach(amount: int, caps: SpendCaps, hour: int, day: int): Option<DenyReason> {
    if amount > caps.perTrade then Some(PerTrade)
    else if hour + amount > caps.perHour then Some(PerHour)
    else if day + amount > caps.perDay then Some(PerDay)
    else None
  }

  /** A consistency check: the source writes the cap test twice, and the two copies agree on the same tables. */
  lemma PreviewAgreesWithReserve(db: Db, bucket: QuoteBucket, amount: int, caps: SpendCaps, now: int)
    ensures var breach := CapBreach(amount, caps, SumActive(db.spends, bucket, now - HOUR_MS),
                                    SumActive(db.spends, bucket, now - DAY_MS));
      var outcome := ReserveOutcomeOf(db, bucket, amount, caps, now);
      && (breach.None? <==> outcome.Granted?)
      && (breach.Some? ==> outcome.reason == breach.value)
  {
  }

  /** Reserved and consumed spend stamped after `now`. */
  function SumLater(spends: seq<Spend>, bucket: QuoteBucket, now: int): int {
    if spends == [] then 0
    else SumLater(spends[..|spends| - 1], bucket, now) + SinceAmount(spends[|spends| - 1], bucket, now + 1)
  }

  /** Usage as of a stamp is the window that ends at it, and whatever was stamped later. */
  lemma {:induction false} UsageSplits(spends: seq<Spend>, bucket: QuoteBucket, since: int, now: int)
    requires since <= now
    ensures SumActive(spends, bucket, since) == SumWindow(spends, bucket, since, now) + SumLater(spends, bucket, now)
  {
    if spends != [] {
      UsageSplits(spends[..|spends| - 1], bucket, since, now);
    }
  }

  /** A suspended exit that posts nothing, whose mints will pass. */
  predicate SuspendedExit(run: Run, input2022: bool, output2022: bool) {
    && run.phase.Inspecting? && run.request.intent.inputAmount == 0
    && PostsZeroCollateral(run.request.intent.kind)
    && QuoteBucketFor(run.request.intent.inputMint).Some?
    && (run.request.policy.allowToken2022 || (!input2022 && !output2022))
  }

  /** What the cap check of a suspended exit finds beyond its caps: usage as of the exit's own stamp. */
  predicate OverCap(db: Db, run: Run)
    requires QuoteBucketFor(run.request.intent.inputMint).Some?
  {
    var bucket := QuoteBucketFor(run.request.intent.inputMint).value;
    var caps := CapsFor(run.request.policy, bucket);
    || caps.perTrade < 0
    || SumActive(db.spends, bucket, run.now - HOUR_MS) > caps.perHour
    || SumActive(db.spends, bucket, run.now - DAY_MS) > caps.perDay
  }

  lemma InspectingIsFresh(steps: seq<Step>, id: TradeId)
    requires BootRecovery(INIT, steps) && id in Exec(INIT, steps).runs && Exec(INIT, steps).runs[id].phase.Inspecting?
    ensures Exec(INIT, steps).runs[id].reservationId.None? && !Exec(INIT, steps).runs[id].inserted
  {
    InitInv();
    RunKeeps(INIT, steps);
    var s := Exec(INIT, steps);
    assert RunAgrees(s.db, id, s.runs[id]);
  }

  lemma ExitSegment(db: Db, id: TradeId, run: Run, input2022: bool, output2022: bool)
    requires SuspendedExit(run, input2022, output2022) && run.reservationId.None? && !run.inserted
    ensures var bucket := QuoteBucketFor(run.request.intent.inputMint).value;
      Resume(db, id, run, Mints(input2022, output2022)) ==
        if OverCap(db, run) then Outcome(db, None, [])
        else Outcome(db.(spends := db.spends + [Spend(id, bucket, 0, Held, run.now)]),
                     Some(run.(reservationId := Some(|db.spends|), phase := ReadingBalances)), [])
    ensures Catch(db, id, run, "CAP_EXCEEDED") == Outcome(db, None, [])
  {
    var bucket := QuoteBucketFor(run.request.intent.inputMint).value;
    PreviewAgreesWithReserve(db, bucket, 0, CapsFor(run.request.policy, bucket), run.now);
  }

  lemma OverCapSplits(db: Db, run: Run)
    requires QuoteBucketFor(run.request.intent.inputMint).Some?
    ensures var bucket := QuoteBucketFor(run.request.intent.inputMint).value; var caps := CapsFor(run.request.policy, bucket);
      var later := SumLater(db.spends, bucket, run.now);
      OverCap(db, run) <==>
        (caps.perTrade < 0 || SumWindow(db.spends, bucket, run.now - HOUR_MS, run.now) + later > caps.perHour
         || SumWindow(db.spends, bucket, run.now - DAY_MS, run.now) + later > caps.perDay)
  {
    var bucket := QuoteBucketFor(run.request.intent.inputMint).value;
    UsageSplits(db.spends, bucket, run.now - HOUR_MS, run.now);
    UsageSplits(db.spends, bucket, run.now - DAY_MS, run.now);
  }

  /**
   * The exact condition, at any reachable point: a suspended exit that posts nothing is refused for a cap if and
   * only if usage as of its stamp exceeds the hour or the day cap, that is, the window ending at its stamp and the
   * spend stamped after it together do (a negative per-trade cap refuses everything). Otherwise it goes on, with a
   * reservation of nothing.
   */
  lemma SuspendedExitRefusedIff(steps: seq<Step>, id: TradeId, input2022: bool, output2022: bool)
    requires BootRecovery(INIT, steps) && id in Exec(INIT, steps).runs
    requires SuspendedExit(Exec(INIT, steps).runs[id], input2022, output2022)
    ensures var s := Exec(INIT, steps); var run := s.runs[id];
      var bucket := QuoteBucketFor(run.request.intent.inputMint).value; var caps := CapsFor(run.request.policy, bucket);
      var later := SumLater(s.db.spends, bucket, run.now);
      var o := Resume(s.db, id, run, Mints(input2022, output2022));
      && (o == Catch(s.db, id, run, "CAP_EXCEEDED") <==> OverCap(s.db, run))
      && (OverCap(s.db, run) <==>
            caps.perTrade < 0 || SumWindow(s.db.spends, bucket, run.now - HOUR_MS, run.now) + later > caps.perHour
            || SumWindow(s.db.spends, bucket, run.now - DAY_MS, run.now) + later > caps.perDay)
      && (OverCap(s.db, run) ==> o == Outcome(s.db, None, []))
      && (!OverCap(s.db, run) ==>
            o == Outcome(s.db.(spends := s.db.spends + [Spend(id, bucket, 0, Held, run.now)]),
                         Some(run.(reservationId := Some(|s.db.spends|), phase := ReadingBalances)), []))
  {
    InspectingIsFresh(steps, id);
    var s := Exec(INIT, steps);
    var run := s.runs[id];
    ExitSegment(s.db, id, run, input2022, output2022);
    OverCapSplits(s.db, run);
  }

  lemma {:induction false} LaterNeedsStamp(spends: seq<Spend>, bucket: QuoteBucket, now: int)
    requires NoLaterStamp(spends, bucket, now)
    ensures SumLater(spends, bucket, now) == 0
  {
    if spends != [] {
      LaterNeedsStamp(spends[..|spends| - 1], bucket, now);
    }
  }

  /**
   * Only an overtaken exit is refused. With unchanged caps a cap refusal of an exit that posts nothing means that
   * something in its bucket was stamped after it.
   */
  lemma RefusedExitWasOvertaken(steps: seq<Step>, id: TradeId, input2022: bool, output2022: bool)
    requires BootRecovery(INIT, steps) && id in Exec(INIT, steps).runs
    requires SuspendedExit(Exec(INIT, steps).runs[id], input2022, output2022)
    requires var policy := Exec(INIT, steps).runs[id].request.policy;
      PoliciesWithin(steps, Limits(policy.capsSol, policy.capsUsdc))
    requires var run := Exec(INIT, steps).runs[id];
      var caps := CapsFor(run.request.policy, QuoteBucketFor(run.request.intent.inputMint).value);
      caps.perTrade >= 0 && caps.perHour >= 0 && caps.perDay >= 0
    ensures var s := Exec(INIT, steps); var run := s.runs[id];
      Resume(s.db, id, run, Mints(input2022, output2022)) == Catch(s.db, id, run, "CAP_EXCEEDED") ==>
        !NoLaterStamp(s.db.spends, QuoteBucketFor(run.request.intent.inputMint).value, run.now)
  {
    var s := Exec(INIT, steps);
    var run := s.runs[id];
    var bucket := QuoteBucketFor(run.request.intent.inputMint).value;
    SuspendedExitRefusedIff(steps, id, input2022, output2022);
    if NoLaterStamp(s.db.spends, bucket, run.now) {
      LaterNeedsStamp(s.db.spends, bucket, run.now);
      ExitNeverCapped(steps, run.request.policy, bucket, run.now);
    }
  }

  /**
   * Exits stay open. With unchanged caps, an exit that posts nothing is never refused for a cap as long as
   * nothing in its bucket was stamped after it was: the window invariant leaves it room.
   */
  lemma ExitNeverCapped(steps: seq<Step>, policy: PolicyConfig, bucket: QuoteBucket, now: int)
    requires BootRecovery(INIT, steps) && PoliciesWithin(steps, Limits(policy.capsSol, policy.capsUsdc))
    requires var caps := CapsFor(policy, bucket); caps.perTrade >= 0 && caps.perHour >= 0 && caps.perDay >= 0
    requires NoLaterStamp(Exec(INIT, steps).db.spends, bucket, now)
    ensures ReserveOutcomeOf(Exec(INIT, steps).db, bucket, 0, CapsFor(policy, bucket), now).Granted?
  {
    var spends := Exec(INIT, steps).db.spends;
    var limits := Limits(policy.capsSol, policy.capsUsdc);
    SlidingWindowCap(steps, limits, bucket, now - HOUR_MS);
    SlidingWindowCap(steps, limits, bucket, now - DAY_MS);
    ActiveIsWindow(spends, bucket, now - HOUR_MS, now);
    ActiveIsWindow(spends, bucket, now - DAY_MS, now);
    SpentIsWindow(spends, bucket, now - HOUR_MS, now);
    SpentIsWindow(spends, bucket, now - DAY_MS, now);
  }

  // ---- an exit that is overtaken -----------------------------------------------------------------

  /** The `execute` calls of a run are stamped by a clock that never runs back. */
  predicate ClockForward(steps: seq<Step>) {
    forall i, j | 0 <= i < j < |steps| && steps[i].Execute? && steps[j].Execute? :: steps[i].now <= steps[j].now
  }

  const TENS := SpendCaps(10, 10, 100)
  const OPEN_POLICY := PolicyConfig(true, false, 100, TENS, TENS, None, [], false, 0, 0)

  /** An order of `kind` for `amount` lamports, with nothing a guard objects to. */
  function Order(key: string, kind: IntentKind, amount: int, leg: Option<PerpLeg>): Request {
    Request(key, TradeIntent(kind, WSOL_MINT, amount, USDC_MINT, false, false, "tx", 0, Finite(0.0), Quote(10, 10, 0), leg),
            false, OPEN_POLICY, true)
  }

  const FIRST_BUY := Order("first", Swap, 10, None)
  const SECOND_BUY := Order("second", Swap, 10, None)
  const EXIT := Order("exit", PerpClose, 0, Some(PerpLeg("venue", "SOL", 0, Long, 1, 1)))

  /** The exit starts an hour after the first buy and is suspended while a buy one millisecond later reserves. */
  const OVERTAKING := [
    Execute(FIRST_BUY, 0), Answered(0, Mints(false, false)), Execute(EXIT, HOUR_MS),
    Execute(SECOND_BUY, HOUR_MS + 1), Answered(2, Mints(false, false))]

  lemma OrdersAccepted()
    ensures GuardsOf(FIRST_BUY).Accepted? && GuardsOf(SECOND_BUY).Accepted? && GuardsOf(EXIT).Accepted?
    ensures !Unsettleable(FIRST_BUY) && !Unsettleable(SECOND_BUY) && !Unsettleable(EXIT)
    ensures QuoteBucketFor(WSOL_MINT) == Some(Sol)
  {
    assert SlippageBps(10, 10) == 0;
  }

  /** A fresh execution of an accepted order suspends at the mint inspection. */
  lemma Starts(s: Sys, q: Request, now: int)
    requires q.key !in s.db.idempotency && GuardsOf(q).Accepted? && !Unsettleable(q)
    ensures Apply(s, Execute(q, now)) ==
      s.(db := s.db.(idempotency := s.db.idempotency[q.key := s.next]),
         runs := s.runs[s.next := Run(q, now, None, false, Inspecting)], next := s.next + 1)
  {
    assert s.log + [] == s.log;
  }

  /** A buy of ten lamports that the caps let through reserves them. */
  lemma Reserves(s: Sys, id: TradeId, run: Run)
    requires id in s.runs && s.runs[id] == run && run.phase.Inspecting?
    requires run.request.intent.inputMint == WSOL_MINT && run.request.intent.inputAmount == 10
    requires run.request.policy == OPEN_POLICY && QuoteBucketFor(WSOL_MINT) == Some(Sol)
    requires SumActive(s.db.spends, Sol, run.now - HOUR_MS) == 0 && SumActive(s.db.spends, Sol, run.now - DAY_MS) <= 90
    ensures Apply(s, Answered(id, Mints(false, false))) ==
      s.(db := s.db.(spends := s.db.spends + [Spend(id, Sol, 10, Held, run.now)]),
         runs := s.runs[id := run.(reservationId := Some(|s.db.spends|), phase := ReadingBalances)])
  {
    assert s.log + [] == s.log;
  }

  lemma SumOfOne(row: Spend, since: int)
    ensures SumActive([row], Sol, since) == SinceAmount(row, Sol, since)
  {
    assert [row][..0] == [];
  }

  lemma SumOfTwo(a: Spend, b: Spend, since: int)
    ensures SumActive([a, b], Sol, since) == SinceAmount(a, Sol, since) + SinceAmount(b, Sol, since)
  {
    SumOfOne(a, since);
    assert [a, b][..1] == [a];
  }

  lemma ExecCons(s: Sys, step: Step, rest: seq<Step>)
    ensures Exec(s, [step] + rest) == Exec(Apply(s, step), rest)
    ensures !step.StartRecovery? && BootRecovery(Apply(s, step), rest) ==> BootRecovery(s, [step] + rest)
  {
    assert ([step] + rest)[1..] == rest;
  }

  /** The state the run ends in: two buys reserved, the exit still suspended with the stamp between theirs. */
  lemma OvertakingReaches()
    ensures var s := Exec(INIT, OVERTAKING);
      && s.db.spends == [Spend(0, Sol, 10, Held, 0), Spend(2, Sol, 10, Held, HOUR_MS + 1)]
      && 1 in s.runs && s.runs[1] == Run(EXIT, HOUR_MS, None, false, Inspecting)
    ensures BootRecovery(INIT, OVERTAKING)
  {
    OrdersAccepted();
    var first, second := Spend(0, Sol, 10, Held, 0), Spend(2, Sol, 10, Held, HOUR_MS + 1);
    Starts(INIT, FIRST_BUY, 0);
    var s1 := Apply(INIT, Execute(FIRST_BUY, 0));
    Reserves(s1, 0, s1.runs[0]);
    var s2 := Apply(s1, Answered(0, Mints(false, false)));
    assert s2.db.spends == [first] by {
      assert [] + [first] == [first];
    }
    Starts(s2, EXIT, HOUR_MS);
    var s3 := Apply(s2, Execute(EXIT, HOUR_MS));
    Starts(s3, SECOND_BUY, HOUR_MS + 1);
    var s4 := Apply(s3, Execute(SECOND_BUY, HOUR_MS + 1));
    SumOfOne(first, 1);
    SumOfOne(first, HOUR_MS + 1 - DAY_MS);
    Reserves(s4, 2, s4.runs[2]);
    var s5 := Apply(s4, Answered(2, Mints(false, false)));
    assert s5.db.spends == [first, second] by {
      assert [first] + [second] == [first, second];
    }
    FiveSteps(INIT, Execute(FIRST_BUY, 0), Answered(0, Mints(false, false)), Execute(EXIT, HOUR_MS),
              Execute(SECOND_BUY, HOUR_MS + 1), Answered(2, Mints(false, false)));
  }

  /** Five steps, none of which starts a recovery, one by one. */
  lemma FiveSteps(s: Sys, a: Step, b: Step, c: Step, d: Step, e: Step)
    requires !a.StartRecovery? && !b.StartRecovery? && !c.StartRecovery? && !d.StartRecovery? && !e.StartRecovery?
    ensures Exec(s, [a, b, c, d, e]) == Apply(Apply(Apply(Apply(Apply(s, a), b), c), d), e)
    ensures BootRecovery(s, [a, b, c, d, e])
  {
    var s1 := Apply(s, a);
    var s2 := Apply(s1, b);
    var s3 := Apply(s2, c);
    var s4 := Apply(s3, d);
    ExecCons(s4, e, []);
    ExecCons(s3, d, [e]);
    ExecCons(s2, c, [d, e]);
    ExecCons(s1, b, [c, d, e]);
    ExecCons(s, a, [b, c, d, e]);
    assert [e] + [] == [e] && [d] + [e] == [d, e] && [c] + [d, e] == [c, d, e] && [b] + [c, d, e] == [b, c, d, e];
    assert [a] + [b, c, d, e] == [a, b, c, d, e];
  }

  /**
   * An exit can be refused although the clock never ran back. Three accepted orders start at 0, at one hour and a
   * millisecond after that; the exit in the middle is suspended while the last reserves; its open-ended sum then
   * counts both buys, and it is refused for the hour cap.
   */
  lemma OvertakenExitIsCapped()
    ensures BootRecovery(INIT, OVERTAKING) && ClockForward(OVERTAKING)
    ensures GuardsOf(EXIT).Accepted? && PostsZeroCollateral(EXIT.intent.kind) && EXIT.intent.inputAmount == 0
    ensures var s := Exec(INIT, OVERTAKING);
      && 1 in s.runs && s.runs[1] == Run(EXIT, HOUR_MS, None, false, Inspecting)
      && ReserveOutcomeOf(s.db, Sol, 0, TENS, HOUR_MS) == Denied(PerHour, 10, 20)
      && Resume(s.db, 1, s.runs[1], Mints(false, false)) == Catch(s.db, 1, s.runs[1], "CAP_EXCEEDED")
  {
    OrdersAccepted();
    OvertakingReaches();
    SumOfTwo(Spend(0, Sol, 10, Held, 0), Spend(2, Sol, 10, Held, HOUR_MS + 1), 0);
  }
}
