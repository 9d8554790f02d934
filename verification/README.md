# Trading daemon: verified model

A Dafny model of the parts of a Solana trading daemon on which money and custody depend, with proofs of what those
parts keep over every run. Nothing here runs the daemon; every statement is about the model and is checked by the
Dafny verifier (`dafny verify dfyconfig.toml`).

**Kernel money path** (`Store`, `Gateway`, `GatewayInvariants`, `GatewayTheorems`, `GatewayOutcomes`, `GatewayHistory`,
`SpendCap`, `LiveRun`, `Kernel`, `PolicyEngine`, `Money`). Any number of live executions, one boot-time recovery and
crashes interleave over one store. What the gateway runs between two awaits is one step; mint inspection, balances,
simulation, wallet, broadcaster and confirmer answer arbitrarily. `LiveRun` and `KernelStore` are the same code as
objects updated in place, tied to the steps clause by clause, and `Kernel` shows that any sequence of calls to those
objects is a run of the step system. `GatewayOutcomes` says which answer ends a trade in which state and what an
accepted request has passed, of tables and policies alone; `GatewayHistory` says what lies behind every signature, spend
and row of a run.

**Signer** (`Replay`, `Signer`, `SignerInvariants`, `SignerTheorems`, `SignerOutcomes`, `SignerService`, `SignerHost`,
`SignPolicy`, `SignPolicyTheorems`). The one-time authorization table moved by compare-and-set, every path of the
custody boundary as steps with restarts, the object that carries them out, whose calls in any sequence are a run
(`SignerHost`), and the policy evaluator proved equal to an order-free statement. `SignerOutcomes` gives the one cause
of every row change and what lies behind every signing; `SignPolicyTheorems` says what the evaluator accepts, byte by
byte.

**Durable executions** (`Executions`, `ExecutionTheorems`, `ExecutionOutcomes`, `Orchestrator`, `OrchestratorHost`). The
host's lifecycle from approval to finality with crashes between any two awaits, and the replay fence of `submit` over
whole runs.

**Perps safety** (`Liquidation`, `Perps`, `PerpMeaning`, `PerpLimits`, `Settlement`). Liquidation arithmetic over reals,
the guard rules and what they come to in plain numbers and names, and the fill check on signed positions.

**Candles and market summary** (`Rationals`, `Trades`, `Candles`, `CandleTheorems`, `CandleBounds`, `CandleOrder`,
`MarketSummary`), **audit roots** (`AuditRoots`), **socket frames** (`Frames`), **branching transcripts** (`Sessions`,
`SessionTheorems`) and the **agent loop** (`AgentLoop`, `AgentRun`, `AgentTheorems`, `AgentLimits`). `Options` and
`Basics` hold what they share.

Eight places where the code does not do what its surroundings suggest are stated exactly:

- `recover()` called while an execution is confirming or settling may release a trade that then confirms. It is safe if
  and only if no such execution is running (`RecoverySafeIffQuiet`).
- An exit that posts nothing can be refused for a spend cap although the clock never ran back, when a trade that started
  later overtakes it: `OvertakenExitIsCapped` is a run in which that happens. At every reachable point such an exit is
  refused if and only if usage as of its stamp, which counts spend stamped later, exceeds the hour or the day cap
  (`SuspendedExitRefusedIff`); with unchanged caps only an overtaken exit is (`RefusedExitWasOvertaken`).
- An exit that posts no collateral passes whatever the arms, caps, exposure and funding are, but the structural check
  refuses it as malformed when a price, the leverage, the notional or the margin ratio it carries is unusable:
  `ExitsStayOpen` is the exact condition, and `UnusableReadingBlocksExit` an admitted close that a missing oracle price
  blocks.
- The per-position caps bound what one order adds, not the position it adds to: an increase of 30 on a position of 80 is
  admitted under a cap of 100 (`AdditionCanExceedCap`). `AdditionsFitIff` gives the exact condition for the enlarged
  position to stay within them; the portfolio cap does cover it (`AdditionStaysWithinPortfolio`).
- A branch from a message with an empty id shows what its parent says later, and a branch from a session with an empty
  id does not show its ancestors' prefix. What a session shows now is its history exactly under
  `MessagesAreHistoryIff`; it is left alone by everything appended elsewhere if and only if no link up to where the walk
  stops branches from an empty id (`StableIffNoOpenCut`); both together are exactly what makes it its history for good
  (`HistoryForGoodIff`).
- Candles depend on the order of arrival of trades with distinct ids if and only if the locale calls two different ids
  equal (`OrderNeverShowsIff`, `TieShows`), and of two different trades under one id only the first counts
  (`OnlyFirstOfAnIdCounts`), so there the order shows under every locale (`SharedIdShows`).
- The agent's limit on repeated calls is checked call by call against what was planned before the batch, so one answer
  that asks for the same call several times gets past it: `TwinsExceedTheLimit` has two under a limit of one.
  `RepeatLimitKeptIffBatchFits` is the exact condition on a batch for the limit to hold until the next answer.
- A newline-free tail over the frame limit is refused or kept depending on how the stream is cut
  (`OverlongTailDependsOnCuts`); `PushesReadLines` gives the exact condition.

Prices, leverage and ratios are reals, so rounding of floating-point numbers is not modelled; amounts, heights and times
are unbounded integers.

## Model

| member | source | states |
|---|---|---|
| Store.KernelStore.SumActiveRows | src/kernel/store.ts:161-170 | the summing loop computes the reserved and consumed spend of a bucket since an open-ended start |
| Store.KernelStore.Usage | src/kernel/store.ts:173-178 | hour and day usage as of a stamp, changing nothing |
| Store.KernelStore.Claim | src/kernel/store.ts:181-188 | the first claimer of an idempotency key wins and the key stays bound to it |
| Store.KernelStore.ReserveSpend | src/kernel/store.ts:206-249 | the reservation block: per-trade, hour and day caps in that order; one held row added exactly when all pass |
| Store.KernelStore.ReleaseReservation | src/kernel/store.ts:251-257 | only a held reservation is released |
| Store.KernelStore.ConsumeReservation | src/kernel/store.ts:259-263 | consumption has no state test: whatever the row was, it becomes consumed |
| Store.KernelStore.Insert | src/kernel/store.ts:265-285 | one trade row per id and per idempotency key, with its reservation |
| Store.KernelStore.Persist | src/kernel/store.ts:288-299 | the signed bytes and signature are written and nothing else changes |
| Store.KernelStore.WriteSignature | src/kernel/store.ts:307-311 | only the signature of one row changes |
| Store.KernelStore.WriteState | src/kernel/store.ts:301-305 | only the state of one row changes |
| Store.KernelStore.WriteFailure | src/kernel/store.ts:313-319 | state and error of one row change together |
| Store.KernelStore.PendingSent | src/kernel/store.ts:322-326 | lists exactly the rows in `sent`, each once |
| Store.WindowBelowActive | src/kernel/store.ts:161-170 | any closed window's spend is at most the open-ended sum from no later a start |
| Store.ActiveIsWindow | src/kernel/store.ts:161-170 | with no later stamps the open-ended sum is the window's |
| Store.WindowAfterUpdate | src/kernel/store.ts:251-263 | what changing one reservation's state does to every window |
| Money.SlippageWithin | src/kernel/money.ts:80-84 | a truncated slippage within a bound puts the received amount strictly above the bound's complement |
| Money.SlippageMonotone | src/kernel/money.ts:80-84 | receiving more never reports more slippage |
| PolicyEngine.AcceptedAmount | src/kernel/policy-engine.ts:54-68 | an accepted intent spends a non-negative amount, and nothing only on an exit that posts no collateral |
| PolicyEngine.ExitIgnoresNotionalFeeCeiling | src/kernel/policy-engine.ts:122-151 | a zero-amount exit is never refused for the notional fee ceiling, only for the absolute one |
| GatewayInvariants.StepKeeps | src/kernel/trade-gateway.ts:123-381 | every step keeps the agreement of rows, reservations, runs, recovery list and log, and moves rows only along the lifecycle |
| GatewayInvariants.RunKeeps | src/kernel/trade-gateway.ts:123-381 | the same over whole runs, with what rows can reach |
| GatewayInvariants.ResumeOk | src/kernel/trade-gateway.ts:144-380 | any answer to any await leaves the trade's row and reservation in agreement and touches no other trade |
| GatewayInvariants.CrashKeeps | src/kernel/reconciler.ts:37-46 | a crash at any await loses only the runs |
| GatewayInvariants.RecoveryKeeps | src/kernel/reconciler.ts:37-74 | settling one recovered row keeps the invariant and only finishes rows |
| GatewayInvariants.SettleEntryOk | src/kernel/reconciler.ts:46-73 | each of the four recovery outcomes leaves the row terminal with the matching reservation state |
| GatewayTheorems.Lifecycle | src/kernel/trade-gateway.ts:144-380 | confirmed iff consumed, expired or errored iff released, otherwise held; no spend consumed without its confirmed trade; rows move only along the lifecycle |
| GatewayTheorems.AtMostOnce | src/kernel/trade-gateway.ts:246-289 | one key is signed at most once and broadcast at most once, and each broadcast follows the persisting of the very bytes it sends |
| GatewayTheorems.RecoveryCompletes | src/kernel/reconciler.ts:37-74 | an undisturbed recovery leaves no row in `sent` except under a live execution |
| GatewayTheorems.RecoverySafeIffQuiet | src/kernel/reconciler.ts:37-74 | recovery leaves finished trades final iff no execution is confirming or settling |
| GatewayTheorems.MidRunRecoveryOverwrites | src/kernel/trade-gateway.ts:291-357 | with such an execution there is a run in which a terminal row is overwritten |
| GatewayOutcomes.ConfirmationDecides | src/kernel/trade-gateway.ts:291-321 | at every reachable confirming execution: `expired` ends the trade expired and its reservation released, `failed` and a rejection errored and released, `confirmed` changes no table and goes on to settle |
| GatewayOutcomes.SettlementDecides | src/kernel/trade-gateway.ts:323-380 | at every reachable settling execution: the read confirms the trade and consumes its reservation, a rejection leaves it errored and released |
| GatewayOutcomes.RecoveryDecides | src/kernel/reconciler.ts:46-73 | at every reachable recovery: the row it has come to ends confirmed, expired or errored exactly as the confirmer replied about it, without a signature errored, its reservation consumed or released with it; a rejection changes no table |
| GatewayOutcomes.AcceptedIff | src/kernel/policy-engine.ts:30-185 | a live request is accepted iff no kill switch, armed, its amount right for its kind, its fee within both ceilings, its slippage and min-out within the clamp, both mints allowed, pinned or confirmed, its leg and transaction there |
| GatewayHistory.NothingMovesUnvetted | src/kernel/trade-gateway.ts:131-289 | behind every signing, persisting and broadcast of any run lies the request of its key: within the policy it was asked under, mints inspected, input reserved in full in the bucket of its mint, balance read and enough, simulation passed; the bytes persisted and sent are those the wallet returned |
| GatewayHistory.SpendIsTheRequests | src/kernel/trade-gateway.ts:155-179 | every row of the spend table is the whole input of an accepted request, in its bucket, under its stamp |
| GatewayHistory.RowsSayWhatWasReported | src/kernel/trade-gateway.ts:261-357 | in any run a row is confirmed or expired only if the confirmer said so of that trade, and sent only if the broadcaster answered for it |
| SpendCap.SlidingWindowCap | src/kernel/store.ts:206-249 | under any interleaving and any clock, every closed hour and every closed day holds at most its cap, and every spend at most the per-trade cap |
| SpendCap.RunKeepsCap | src/kernel/trade-gateway.ts:155-179 | the window invariant over whole runs |
| SpendCap.ReserveKeepsCap | src/kernel/store.ts:206-249 | a granted reservation keeps every window within its cap |
| SpendCap.GrantedIffFits | src/kernel/store.ts:206-249 | a reservation is granted iff the amount fits the trade cap and, with what is held and consumed since an hour and since a day before its stamp, however late stamped, the hour and day caps |
| SpendCap.PreviewAgreesWithReserve | src/kernel/trade-gateway.ts:517-541 | consistency of two copies of one test: on the same usage the preview and the reservation refuse the same amounts for the same reason |
| SpendCap.UsageSplits | src/kernel/store.ts:161-178 | usage as of a stamp is the window that ends there and everything stamped later |
| SpendCap.SuspendedExitRefusedIff | src/kernel/trade-gateway.ts:155-179 | at any reachable point a suspended exit that posts nothing and whose mints pass is refused for a cap iff usage as of its stamp, window and later spend together, exceeds the hour or day cap; otherwise it goes on holding a reservation of nothing |
| SpendCap.RefusedExitWasOvertaken | src/kernel/trade-gateway.ts:155-179 | with unchanged caps a cap refusal of such an exit means that something in its bucket was stamped after it |
| SpendCap.OvertakenExitIsCapped | src/kernel/trade-gateway.ts:131-179 | a run of three accepted orders under a clock that never runs back, after which the suspended zero-amount exit between two buys is refused for the hour cap |
| SpendCap.ExitNeverCapped | src/kernel/store.ts:206-249 | with no later stamp in its bucket an exit that posts nothing is never refused for a cap, in any reachable state |
| LiveExecution.LiveRun.constructor | src/kernel/trade-gateway.ts:131-153 | claim, static guards and settleability, as the first segment |
| LiveExecution.LiveRun.MintsInspected | src/kernel/trade-gateway.ts:155-179 | refuses Token-2022 mints, then reserves the input leg |
| LiveExecution.LiveRun.BalancesRead | src/kernel/trade-gateway.ts:181-211 | balance with fee headroom, then the row is inserted |
| LiveExecution.LiveRun.Simulated | src/kernel/trade-gateway.ts:230-247 | a failed simulation ends the run, otherwise the wallet is asked |
| LiveExecution.LiveRun.Signed | src/kernel/trade-gateway.ts:246-270 | the signed bytes are persisted before the broadcaster is called |
| LiveExecution.LiveRun.BroadcastAnswered | src/kernel/trade-gateway.ts:261-289 | signature and `sent` are written after the broadcast |
| LiveExecution.LiveRun.ConfirmAnswered | src/kernel/trade-gateway.ts:291-321 | expiry and failure release and mark the row, confirmation goes on to settle |
| LiveExecution.LiveRun.SettleAnswered | src/kernel/trade-gateway.ts:323-357 | consumption and `confirmed` after the balances are read |
| LiveExecution.LiveRun.HandleError | src/kernel/trade-gateway.ts:358-380 | the catch block releases the reservation and marks an inserted row errored |
| LiveExecution.Reconciler.Recover | src/kernel/reconciler.ts:37-74 | each `sent` row is settled once, up to the first rejection: confirmed with its reservation consumed iff it has a signature and the reply is `confirmed`, expired and released iff it is `expired`, errored and released otherwise; no other row or spend changes, exactly the rows from there on stay `sent`, and a full pass counts checked, confirmed and failed |
| LiveExecution.Reconciler.SettleOne | src/kernel/reconciler.ts:46-73 | the loop body as the recovery step; the confirmer's word, and whether there is a signature, decide the row's state |
| LiveExecution.SettleAllRows | src/kernel/reconciler.ts:37-74 | a whole pass finishes exactly the listed rows |
| LiveExecution.PassIsStepping | src/kernel/reconciler.ts:46-73 | the loop over any part of the work list is that many recovery steps of the system |
| LiveExecution.PassDecides | src/kernel/reconciler.ts:46-73 | a pass over any part of the work list leaves each of its rows, and each of their reservations, in the state its own reply decides, whatever the other rows are |
| LiveExecution.LiveRun.Resumed | src/kernel/trade-gateway.ts:155-380 | whatever an await resolves to, the object goes where the step system does; a rejection lands in the catch block |
| KernelProcess.Kernel.Drive | src/kernel/trade-gateway.ts:123-381 | any sequence of `execute` calls, answers, recoveries and crashes leaves store, executions and work list where a run of the step system leads |
| KernelProcess.Kernel.Keeps | src/kernel/trade-gateway.ts:123-381 | so, with recovery at boot only, the objects satisfy the invariant after any such sequence |
| Liquidation.LiquidationInverse | src/perps/liquidation.ts:104-125 | for leverage of at least one the model's distance exists and clears the floor iff leverage is within the ceiling |
| Liquidation.ModelUsable | src/perps/liquidation.ts:58-101 | leverage within the reciprocal margin ratio always has a model distance |
| Liquidation.SubUnitLong | src/perps/liquidation.ts:104-125 | a long below unit leverage is under every ceiling |
| Liquidation.ReconcileIsMinimum | src/perps/liquidation.ts:160-234 | the reconciled distance is the smaller of the usable estimates |
| Perps.ExposureFrom | src/perps/exposure.ts:59-91 | the loop's per-bucket totals are sums of absolute amounts, stale iff some position has no bucket |
| Perps.PerpGuards | src/perps/guards.ts:564-575 | throws the first violation in rule order, or none |
| Perps.EvaluatePerpGuards | src/perps/guards.ts:587-618 | collects every violation in rule order, ok iff there is none |
| Perps.AdmittedClearsFloor | src/perps/guards.ts:422-466 | for an admitted opening intent every estimate that exists, venue or model, clears the floor |
| PerpMeaning.AdmittedIff | src/perps/guards.ts:90-575 | the guards in plain numbers and names, both ways: arms, account, market lists, collateral, slippage, a reduction that reduces; and for an entry leverage, notional, portfolio, slots, liquidation distance, oracle divergence and funding within their bounds |
| PerpMeaning.ModelPriceMeans | src/perps/liquidation.ts:58-76 | the model liquidation price satisfies its defining equation for either side, and is missing only for a long below unit leverage |
| PerpMeaning.ImpliedNotionalMeans | src/perps/policy.ts:205-223 | the notional implied by margin and leverage is their product with leverage rounded to basis points, in whole units |
| Perps.AdmittedLeverageIsBounded | src/perps/liquidation.ts:104-125 | an admitted opening intent within the reciprocal margin ratio obeys the leverage ceiling |
| Perps.AdmittedStaysWithinCaps | src/perps/guards.ts:289-420 | an admitted opening intent adds a leg within the per-position notional and collateral caps and leaves the portfolio within its cap and its snapshot fresh; an open where nothing was held also finds a slot |
| Perps.AdditionsFitIff | src/perps/guards.ts:289-354 | whatever an order fills, the position it adds to stays within the per-position caps iff held and asked-for notional, and held and posted collateral, do together |
| Perps.AdditionStaysWithinPortfolio | src/perps/guards.ts:356-386 | adding to a held position of the same bucket leaves the portfolio within its cap |
| PerpLimits.AdditionCanExceedCap | src/perps/guards.ts:319-354 | an increase, and an open in a market already held, admitted although the enlarged position is 110 under a per-position cap of 100 |
| Perps.ExitsStayOpen | src/perps/guards.ts:569-618 | an exit without collateral keeps its verdict under every kill switch, arm, wind-down, exposure, cap, funding and venue liquidation input, and under other prices, leverage, notional and margin ratio iff these are usable; otherwise it is refused as malformed |
| PerpLimits.UnusableReadingBlocksExit | src/perps/intent.ts:352-363 | an admitted close is refused as malformed once its oracle price is not a number |
| Settlement.EndToEndSlippage | src/kernel/trade-gateway.ts:446-464 | a settled token trade without a problem received at least minOut, more than the slippage cap's complement, and reports at most the cap plus 50 |
| Settlement.ReaderAgrees | src/perps/settle.ts:34-54 | on canonical symbols the position reader is the signed size of the position the guards see |
| Settlement.ReductionsNeverFlip | src/perps/guards.ts:218-253 | any part of an admitted reduction shrinks the position by exactly that part, never flips it, and settles to exactly that fill |
| Replay.SqliteReplayStore.ConsumeId | src/signer/replay.ts:37-46 | an authorization id is claimed once |
| Replay.SqliteReplayStore.CompareAndSet | src/signer/replay.ts:47-60 | a row moves only from the named state, one version up |
| Replay.SqliteReplayStore.TakeSigned | src/signer/replay.ts:72-78 | the signed payload goes to one caller only |
| SignerInvariants.StepKeeps | src/signer/index.ts:65-219 | every step keeps the table, the log and the calls in agreement, and every row change climbs a finite rank |
| SignerInvariants.SignKeeps | src/signer/index.ts:133-158 | the owner of a claim signs once, and the claim becomes signed or failed |
| SignerInvariants.LookUpKeeps | src/signer/index.ts:166-194 | a lookup releases the raw bytes once |
| SignerTheorems.SignedAtMostOnce | src/signer/index.ts:133-158 | signing is attempted at most once per id over any run with restarts, throwing attempts included, and never for an expired or still claimed id |
| SignerTheorems.SignedExactlyOnce | src/signer/index.ts:133-158 | behind every row past the signature is exactly one attempt, and it made one |
| SignerTheorems.SuccessesAgree | src/signer/index.ts:65-85 | every success for an id returns the one signature made for it |
| SignerTheorems.RawBytesReleasedOnce | src/signer/index.ts:166-194 | at most one lookup per id gets the signed bytes |
| SignerTheorems.ChangesClimb | src/signer/replay.ts:47-78 | a changed row climbs, so a row changes a bounded number of times |
| SignerTheorems.RefusalLeavesStore | src/signer/index.ts:202-219 | a request refused by verification or policy leaves the store as it was |
| SignerTheorems.TerminalIsFinal | src/signer/index.ts:316-373 | confirmed, reverted, dropped, expired and failed rows never change again |
| SignerOutcomes.EveryMoveExplained | src/signer/index.ts:65-373 | each row change has one cause: confirmed and reverted only by the cluster's word on its signature, expired and dropped only past the fence, signed only by a signature made, claimed only by a request that passed |
| SignerOutcomes.StatusDecides | src/signer/index.ts:329-357 | an error reverts the row, a finalized status confirms it, a processing one takes it from reconciliation to broadcast or leaves it equal; no other row changes |
| SignerOutcomes.FenceDecides | src/signer/index.ts:95-108 | a height past the fence burns the claim as expired; at or before it, or with nothing to compare, the call goes on to sign and no row changes |
| SignerOutcomes.SigningDecides | src/signer/index.ts:133-158 | a signature made under a standing claim is recorded with its request hash, bytes and fence, and answered |
| SignerOutcomes.BroadcastDecides | src/signer/index.ts:258-306 | the expected signature makes the row broadcast, any other answer leaves it to reconciliation under the expected one |
| SignerOutcomes.UnseenDecides | src/signer/index.ts:358-371 | an unseen signature is dropped at a height past its fence and otherwise left as it was |
| SignerOutcomes.NothingSignedUnvetted | src/signer/index.ts:95-158 | behind every signing attempt of any run with restarts lies a request under its id that passed policy, verification as an envelope, and then a height at which its blockhash can still land |
| SignerOutcomes.HandedOnlyForItsMessage | src/signer/index.ts:65-85 | a stored signature is handed out iff the row is still signed and the request's hash is the stored one in either case of letters |
| SigningService.SignerService.LookUpStored | src/signer/index.ts:65-85 | the durable lookup with its refusals |
| SigningService.SignerService.Sign | src/signer/index.ts:115-131 | policy first, then the lookup, then the claim |
| SigningService.SignerService.EnvelopeVerified | src/signer/index.ts:202-219 | a stored signature is returned, otherwise the id is claimed, only after verification and policy |
| SigningService.SignerService.FenceBlockhash | src/signer/index.ts:95-108 | a height past the fence burns the claim as expired, otherwise signing goes on |
| SigningService.SignerService.SignClaimed | src/signer/index.ts:133-158 | a signature is answered only once it is recorded; any failure fails the claim |
| SigningService.SignerService.Result | src/signer/index.ts:166-194 | the signature to anyone, the bytes to the first that asks for them |
| SigningService.SignerService.BroadcastSigned | src/signer/index.ts:258-306 | only the expected signature counts as a broadcast, any other answer is left to reconciliation |
| SigningService.SignerService.StatusAnswered | src/signer/index.ts:329-357 | an error reverts, a finalized status confirms, a processing one promotes from reconciliation; a signature never seen leaves the row and asks for the height exactly where there is a fence |
| SigningService.SignerService.HeightAnswered | src/signer/index.ts:358-371 | an unseen signature past its fence is dropped |
| SigningService.SignerService.ReconcileTransactions | src/signer/index.ts:316-373 | a pass leaves each listed row with a signature reverted, confirmed, broadcast, dropped or equal by its own status and height, up to the first throw, and every other row alone |
| SigningService.ReconcilingIsStepping | src/signer/index.ts:316-373 | the loop body is the composition of the step system's three steps |
| SigningService.DropsOnlyPastTheFence | src/signer/index.ts:329-371 | a row is dropped exactly when it is asked about, unseen and past its fence; its signature is kept |
| SigningHost.SignerHost.Drive | src/signer/index.ts:65-373 | any sequence of requests, answers and restarts leaves the replay store and the calls in flight where a run of the step system leads |
| SigningHost.SignerHost.Keeps | src/signer/index.ts:65-373 | so table, log and calls of the objects agree at every point |
| SignPolicy.MatchRule | src/signer/policy.ts:124-139 | the rule found matches and is the longest that does; whether the program is listed at all |
| SignPolicy.CheckDuplicates | src/signer/policy.ts:342-348 | accepts exactly the rule lists without a repeated program and discriminator |
| SignPolicy.BestIgnoresOrder | src/signer/policy.ts:124-139 | duplicate-free rules choose the same rule in any order |
| SignPolicy.FeeIsCeiling | src/signer/policy.ts:221-225 | the priority fee is the exact ceiling of limit times price over a million |
| SignPolicy.Scan | src/signer/policy.ts:169-204 | the instruction loop ends with the first complaint, or with each touched asset's total and the explicit limit and price |
| SignPolicy.CheckFees | src/signer/policy.ts:206-232 | limit, price and fee in force, and the first fee complaint |
| SignPolicy.CheckCaps | src/signer/policy.ts:234-240 | no complaint exactly when every touched asset has a cap and is within it; otherwise the complaint of the earliest instruction that spends a bad one |
| SignPolicy.AssetsInOrder | src/signer/policy.ts:203-240 | asking asset by asset, in the order of first spending, is asking instruction by instruction |
| SignPolicy.EvaluatePolicy | src/signer/policy.ts:149-247 | accepts exactly the order-free statement; the reported totals are sums of little-endian amounts, each within its cap; a refusal is the first complaint in the order header, instructions, fees, caps |
| SignPolicy.OrderDoesNotMatter | src/signer/policy.ts:149-247 | permuting instructions and duplicate-free rules changes neither acceptance nor any total |
| SignPolicy.RaisingLimitsKeepsAcceptance | src/signer/policy.ts:149-247 | raising any limit never turns acceptance into refusal |
| SignPolicyTheorems.ByteByPosition | src/signer/policy.ts:109-121 | the byte at position k of an amount weighs 256 to the power k, at any width, and the value is below 256 to the width |
| SignPolicyTheorems.AmountMeans | src/signer/policy.ts:109-121 | an amount is read iff its field fits the data, and is the sum of its bytes by weight |
| SignPolicyTheorems.RuleMeans | src/signer/policy.ts:124-139 | in a duplicate-free policy the rule chosen is the one that matches and is longer than every other that does |
| SignPolicyTheorems.AcceptsMeans | src/signer/policy.ts:149-247 | acceptance, byte by byte and both ways: header, every instruction under its rule with amount and mint in place, at most one limit and one price, the fee within its ceilings, each asset's sum of amounts within its cap |
| SignPolicyTheorems.ReportedIsSpent | src/signer/policy.ts:169-247 | of each asset exactly the sum of the amounts spent of it is reported; for a transaction with one spend that is the worth of its one field |
| Executions.ExecutionStore.Create | src/live-trading/index.ts:244-263 | one row per idempotency key |
| Executions.ExecutionStore.MoveTo | src/live-trading/index.ts:287-320 | a row is rewritten only from the named state, one version up |
| ExecutionTheorems.StepKeeps | src/live-trading/index.ts:504-925 | every step keeps rows, calls and log in agreement and only moves rows forward |
| ExecutionTheorems.PhasesNeverFall | src/live-trading/index.ts:287-320 | over any run a phase never falls; signature, quote and approval never change; denied, expired and dry-run rows are final |
| ExecutionTheorems.BroadcastAtMostOnce | src/live-trading/index.ts:719-852 | the host broadcasts an execution at most once, only the signature already stored on its row |
| ExecutionTheorems.SignRequestsAreQuoted | src/live-trading/index.ts:719-796 | every sign request carries the quoted bytes, after a consumed approval |
| ExecutionOutcomes.EveryMoveExplained | src/live-trading/index.ts:504-925 | each row change has one cause: signing within the fence with the approval consumed, expired and dropped past it, confirmed, finalized and failed by the chain's report |
| ExecutionOutcomes.FenceDecides | src/live-trading/index.ts:731-750 | past the quote's last valid height nothing is consumed and the execution expires, at once or once its reservation is let go; up to it the reservation is asked about or the approval consumed and an authorization asked for |
| ExecutionOutcomes.NothingSignedPastTheFence | src/live-trading/index.ts:719-796 | behind every sign request and every consumed approval of any run lies one submission of that execution answered a height at most the quote's last valid one |
| ExecutionOutcomes.RowsObeyTheFence | src/live-trading/index.ts:719-796 | in any run a row is signing only past that check, and expired only when its blockhash is known to be dead |
| ExecutionOutcomes.SigningDecides | src/live-trading/index.ts:770-795 | the signer's answer is stored with message hash and fence before the host broadcasts it, which it does unless the signer did; another signature sent leaves it to reconciliation |
| ExecutionOutcomes.StatusDecides | src/live-trading/index.ts:910-925 | an error fails the execution, finalized and confirmed settle it as such, its signature kept |
| ExecutionOutcomes.UnseenDecides | src/live-trading/index.ts:894-909 | an unseen signature is dropped past its fence, or its reservation released first, and otherwise stays under reconciliation |
| LiveTrading.TradingOrchestrator.CreateExecution | src/live-trading/index.ts:527-588 | one row per id and key, awaiting an approval, approved at once or a dry run |
| LiveTrading.TradingOrchestrator.RefreshApproval | src/live-trading/index.ts:687-705 | a decided approval moves only a row still awaiting it |
| LiveTrading.TradingOrchestrator.Submit | src/live-trading/index.ts:719-733 | the checks before the height is asked for |
| LiveTrading.TradingOrchestrator.HeightAnswered | src/live-trading/index.ts:713-748 | past the fence the execution expires, otherwise reservation, approval, `signing` |
| LiveTrading.TradingOrchestrator.ConsumeAndIssue | src/live-trading/index.ts:743-750 | nothing is issued without a consumed approval |
| LiveTrading.TradingOrchestrator.AuthorizationIssued | src/live-trading/index.ts:763-769 | the authorization id is stored before the signer is asked |
| LiveTrading.TradingOrchestrator.SignedAnswered | src/live-trading/index.ts:770-787 | the signature is stored before anything is broadcast |
| LiveTrading.TradingOrchestrator.BroadcastAnswered | src/live-trading/index.ts:780-795 | another signature than the stored one leaves the execution to reconciliation |
| LiveTrading.TradingOrchestrator.CommitAnswered | src/live-trading/index.ts:783-787 | `broadcast` only from `submitting` |
| LiveTrading.TradingOrchestrator.RecoveredResult | src/live-trading/index.ts:816-852 | a stranded signature is retrieved, stored and broadcast, never made again |
| LiveTrading.TradingOrchestrator.StatusAnswered | src/live-trading/index.ts:891-925 | what the chain reports about a signature |
| LiveTrading.TradingOrchestrator.ReconcileHeightAnswered | src/live-trading/index.ts:894-909 | unseen and past the fence is dropped, unseen before it stays under reconciliation |
| TradingHost.TradingProcess.Drive | src/live-trading/index.ts:504-925 | any sequence of calls, answers and crashes leaves the execution store and the calls in flight where a run of the step system leads |
| TradingHost.TradingProcess.Keeps | src/live-trading/index.ts:504-925 | so rows, calls and log of the objects agree at every point |
| Rationals.ComputeGcd | src/market/ohlcv.ts:14-21 | the loop is Euclid's recursion on absolute values |
| Rationals.MakeRational | src/market/ohlcv.ts:23-27 | refuses a denominator that is not positive, otherwise reduces |
| Rationals.ReducedIsLowest | src/market/ohlcv.ts:23-27 | a reduced fraction is in lowest terms |
| Rationals.ReducedEqualIffSameValue | src/market/ohlcv.ts:22-27 | two reduced fractions are the same pair iff the fractions cross-multiply equal |
| Trades.FilterDuplicates | src/market/ohlcv.ts:68-74 | keeps the first trade of every id, in order |
| Trades.CodeUnitsAreTotal | src/market/ohlcv.ts:75-80 | comparison by code units is a collation that tells all ids apart, as the order results ask |
| Trades.OrderOfArrivalIsLost | src/market/ohlcv.ts:68-80 | under a total id order the sorted trades depend only on which trades there are |
| Trades.AscendingIsUnique | src/market/ohlcv.ts:75-80 | a set of trades has one ascending listing |
| Candles.AddTrade | src/market/ohlcv.ts:88-110 | the loop body opens a candle on a new interval and brings the last one up to date |
| Candles.AggregateCandles | src/market/ohlcv.ts:62-113 | one candle per non-empty interval, in order, each read off its interval's trades; or the error of the first bad trade in sorted order |
| CandleTheorems.DescribedUnique | src/market/ohlcv.ts:81-112 | only one list of candles fits a list of trades |
| CandleTheorems.SameTradesSameCandles | src/market/ohlcv.ts:62-113 | inputs with the same trades, however ordered, repeated or priced in unreduced form, aggregate alike |
| CandleTheorems.PermutationSameCandles | src/market/ohlcv.ts:62-113 | every permutation of trades with distinct ids aggregates alike, errors included |
| CandleTheorems.CandlesAreSound | src/market/ohlcv.ts:88-110 | starts are aligned and increasing, low is at most open and close, high at least |
| CandleBounds.CandleRange | src/market/ohlcv.ts:88-110 | high and low were paid in the interval, and as cross-multiplied fractions no trade of it paid more or less |
| CandleBounds.CandleEnds | src/market/ohlcv.ts:75-110 | open is the price of a trade none of the interval is earlier than by time, slot and sequence, close of one none is later than |
| CandleBounds.CandleVolumes | src/market/ohlcv.ts:107-110 | volumes and count are sums over the trades of the interval, each id once |
| CandleBounds.EveryTradeInOneCandle | src/market/ohlcv.ts:88-110 | every trade that counts falls in exactly one candle |
| CandleBounds.CandlesExistIff | src/market/ohlcv.ts:62-87 | candles exist iff the interval is a positive safe whole number and each id's first trade is good |
| CandleOrder.OrderNeverShowsIff | src/market/ohlcv.ts:75-80 | for every weak ordering of ids: every permutation of every input with distinct ids aggregates alike iff no two different ids compare equal |
| CandleOrder.TieShows | src/market/ohlcv.ts:75-80 | for any two tied ids there are two permuted inputs that both aggregate, and differently |
| CandleTheorems.TiedIdsKeepArrivalOrder | src/market/ohlcv.ts:75-80 | two trades under tied ids open the candle in the order they arrived |
| CandleOrder.OnlyFirstOfAnIdCounts | src/market/ohlcv.ts:68-74 | of two trades under one id the candles are those of the earlier alone |
| CandleOrder.SharedIdShows | src/market/ohlcv.ts:68-74 | two trades under one id have two orders that both aggregate, and differently, under every locale |
| CandleOrder.AggregateExists | src/market/ohlcv.ts:62-113 | every input, collation and interval aggregates to candles or an error |
| MarketSummary.MarketAnalytics | src/market/ohlcv.ts:114-147 | totals, extremes and ratios over the first trade of each id, or the error |
| MarketSummary.TotalsAgree | src/market/ohlcv.ts:108-131 | candle volumes and counts add up to the totals over the trades, each id once |
| MarketSummary.CandlesAgreeWithSummary | src/market/ohlcv.ts:62-147 | where candles exist, for any interval, the summary exists and has their total volumes, count, overall high and overall low |
| CandleBounds.SummaryMeans | src/market/ohlcv.ts:114-147 | sums over each id's first trade; a low and a high that were paid and that no trade went beyond, as fractions; average price and quote per liquidity as exact quotients, there iff their divisor is positive |
| AuditRoots.AuditRootBatcher.Create | src/observability/index.ts:178-184 | a size below one is refused |
| AuditRoots.AuditRootBatcher.Add | src/observability/index.ts:185-189 | leaves are kept in order; a full batch leaves the buffer as one root |
| AuditRoots.AuditRootBatcher.Flush | src/observability/index.ts:190-207 | batches then pending are the leaves added, in order, and the sink holds the roots it took |
| AuditRoots.AuditRootBatcher.PairUp | src/observability/index.ts:195-198 | the inner loop is one level of the tree, a lone last node doubled |
| AuditRoots.AuditRootBatcher.Fold | src/observability/index.ts:194-199 | the outer loop folds a batch to its root |
| AuditRoots.RootIsTop | src/observability/index.ts:192-201 | folding level by level is the top of the tree defined from the root down |
| AuditRoots.RootPinsLeaves | src/observability/index.ts:197-203 | equal leaf count and root mean equal leaves, unless two of the strings hashed for them collide |
| AuditRoots.RootSplits | src/observability/index.ts:192-201 | a full part of a power of two leaves and what follows it are hashed left before right, a shorter right part standing twice on each level on which it is alone |
| AuditRoots.RepeatedLastSameRoot | src/observability/index.ts:197-203 | without the leaf count that fails: repeating the last of an odd batch keeps the root |
| Frames.JsonFrameDecoder.Push | src/signer/index.ts:226-245 | one push as a function of buffer and chunk, with the buffer it leaves on every error |
| Frames.PushesReadLines | src/signer/index.ts:226-245 | any chunks decode iff every finished line is good and no push overflows, and then to the frames of the lines |
| Frames.StreamIsItsLines | src/signer/index.ts:228-235 | lines and tail are the stream cut at every byte 10 and at no other place |
| Frames.OneLinePush | src/signer/index.ts:226-245 | one line sent whole decodes iff it is at most the limit long and parses, nothing for an empty one |
| Frames.AnyCuttingDecodes | src/signer/index.ts:223-246 | where lines and tail are within the limit and non-empty lines parse, every cutting yields exactly the parsed lines, the tail pending |
| Frames.OverlongTailDependsOnCuts | src/signer/index.ts:228-234 | an overlong tail is kept or refused depending on the cuts |
| Sessions.SessionStore.InsertSession | src/storage/session-store.ts:179-206 | insert-or-compare under the parent check, the foreign key and the unique id |
| Sessions.SessionStore.InsertMessage | src/storage/session-store.ts:243-260 | insert-or-compare under the foreign key and the unique id |
| Sessions.SessionStore.OwnMessages | src/storage/session-store.ts:261-269 | a session's own messages in sequence |
| Sessions.SessionStore.Lineage | src/storage/session-store.ts:270-278 | the walk to the root, which ends on every store, cyclic or not |
| Sessions.SessionStore.GetMessages | src/storage/session-store.ts:261-290 | each ancestor's rows through the next branch point, or the error |
| SessionTheorems.RunKeeps | src/storage/session-store.ts:129-130 | over any run, parents are earlier sessions that hold the branch message, ids are unique, rows are only added |
| SessionTheorems.WalkAlwaysSucceeds | src/storage/session-store.ts:270-290 | in every reachable store there is no cycle and no missing branch point |
| SessionTheorems.BranchOfParent | src/storage/session-store.ts:277-290 | a branch shows what its parent shows up to and including the first message with its branch id, then its own messages |
| SessionTheorems.OwnInOrder | src/storage/session-store.ts:261-269 | of two stored messages of a session the earlier comes first among its own |
| SessionTheorems.MessagesAreHistoryIff | src/storage/session-store.ts:277-287 | the result is each ancestor's prefix then the own messages iff no empty id interferes |
| SessionTheorems.StableIffNoOpenCut | src/storage/session-store.ts:261-290 | for all later runs a session shows what it showed and then its own messages, iff no link up to where the walk stops branches from an empty id |
| SessionTheorems.HistoryForGoodIff | src/storage/session-store.ts:261-290 | a session shows its ancestors' prefixes and its own messages after every later run iff it is faithful and has no open cut |
| SessionTheorems.LaterRunsOnlyExtend | src/storage/session-store.ts:261-290 | without an open cut, after any later run a session shows what it showed, then the messages appended to itself since |
| SessionTheorems.NamedIdsSuffice | src/storage/session-store.ts:261-290 | where no id is empty both conditions hold |
| SessionTheorems.AppendShowsInItsSessionOnly | src/storage/session-store.ts:243-290 | without an open cut a new message shows at the end of its own session and in no other |
| SessionTheorems.EmptyBranchIdLeaks | src/storage/session-store.ts:282-287 | with an open cut anywhere on the way up, every new message of the session it opens changes what is shown |
| SessionTheorems.UnfaithfulReachable | src/storage/session-store.ts:277-287 | a concrete run to a branch that shows more than its parent's prefix |
| AgentLoop.Resolve | src/agent/runtime/index.ts:122-144 | throws iff there is no provider or a given budget is not positive; budgets left out are 8 iterations, 16 tool calls and 3 repeats |
| AgentRuntime.AgentRun.Run | src/agent/runtime/index.ts:146-391 | every run ends, with a trace in which each event is lawful after the ones before and the last is terminal |
| AgentRuntime.AgentRun.Iterate | src/agent/runtime/index.ts:171-348 | one iteration: abort check, model, final answer, or a whole batch |
| AgentRuntime.AgentRun.AskModel | src/agent/runtime/index.ts:178-222 | the provider loop: one request each, the answer's provider stays active, failures end the run when they must |
| AgentRuntime.AgentRun.CheckBatch | src/agent/runtime/index.ts:236-250 | iteration, tool and dispatcher checks before the calls are looked at |
| AgentRuntime.AgentRun.Validate | src/agent/runtime/index.ts:251-288 | the first complaint about a call of the batch |
| AgentRuntime.AgentRun.RunBatch | src/agent/runtime/index.ts:289-347 | the answer and one reply per call enter the transcript in order |
| AgentRuntime.AgentRun.RunCall | src/agent/runtime/index.ts:291-347 | a call is planned, started, dispatched and replied to, or the run fails |
| AgentRuntime.AgentRun.Fail | src/agent/runtime/index.ts:353-386 | an abort ends as a timeout or a cancellation, anything else as a failure with its code |
| AgentTheorems.OneTerminalEvent | src/agent/runtime/index.ts:226-234 | exactly one terminal event, and it is last |
| AgentTheorems.DispatchesWithinBudget | src/agent/runtime/index.ts:241-245 | dispatches never exceed the tool budget |
| AgentTheorems.OneRequestPerProvider | src/agent/runtime/index.ts:178-204 | within an iteration each provider is asked at most once |
| AgentTheorems.RequestsWithinBudget | src/agent/runtime/index.ts:171-182 | requests never exceed iterations times providers |
| AgentTheorems.BatchRunsIffSafe | src/agent/runtime/index.ts:236-288 | a batch is let through iff the budgets hold, a dispatcher exists and every call is safe |
| AgentTheorems.DispatchedBatchIsSafe | src/agent/runtime/index.ts:251-311 | every dispatched call is the next of a batch all of whose calls are safe |
| AgentTheorems.RefusedBatchRunsNothing | src/agent/runtime/index.ts:236-288 | after a batch with an error nothing happens but the terminal event with that error, or an abort's |
| AgentTheorems.NoFallThroughAfterProposal | src/agent/runtime/index.ts:205-219 | once a proposal has run, a failing provider ends the run |
| AgentTheorems.ProvidersOnlyAdvance | src/agent/runtime/index.ts:178-204 | requests move forward through the providers; one that failed is never asked again |
| AgentTheorems.DispatchIsPlannedAndStarted | src/agent/runtime/index.ts:291-311 | a dispatch comes right after its plan and start |
| AgentTheorems.TranscriptIsInputAndBlocks | src/agent/runtime/index.ts:290-333 | at every request the transcript is the input and whole blocks: the answers that asked for tools and exactly what their tools returned, in order |
| AgentTheorems.WholeBlockReadsAs | src/agent/runtime/index.ts:290-333 | a whole block is the assistant message and one reply per call, in order |
| AgentLimits.DeniedIffDangerous | src/agent/runtime/index.ts:394-398 | a name is refused iff a listed word stands in it between separators or the ends, or it contains "wallet", in any case of letters |
| AgentLimits.NothingDangerousDispatched | src/agent/runtime/index.ts:268-311 | no trace dispatches a tool of such a name, nor one that is not a read or a proposal |
| AgentLimits.RepeatLimitKeptIffBatchFits | src/agent/runtime/index.ts:251-295 | however the run goes on, no call is planned beyond the repeat limit before the next answer iff what was planned and what the batch asks for of each of its calls come to at most the limit |
| AgentLimits.TwinsExceedTheLimit | src/agent/runtime/index.ts:262-291 | with a limit of one, two equal calls in one answer are both let through and both run |

## Left out

- The dry-run preview of the gateway, journal rows, created and updated stamps, and the text of error details.
- Two recoveries overlapping in one process; the process lock that prevents two processes.
- SQL text, write-ahead logging and store failures: each statement or transaction is atomic and succeeds, except for the
  constraint violations modelled.
- The position and balance readings inside one settle are one answer; parsing and formatting of decimal amounts.
- ReductionsNeverFlip: a fill is described by what it does to the signed position; how a venue fills is not modelled.
- Liquidation and Perps: prices, leverage and ratios are reals; NaN and infinities are one value that is not finite.
- Upper and lower casing and whitespace are ASCII; locale collation is an arbitrary comparison of ids.
- Message decoding, envelope verification, keys and hashes are abstract: a request carries the outcome of each check.
- The in-memory replay store, and refusals of the policy file other than duplicate rules.
- The checks of `execute` before its row is created (simulation, risk, height, reservation): any of them may refuse, and
  the step system lets a row be created in more situations than they do.
- Approve and deny around the approval engine, the engine itself, the authorization issuer and the reservation ledger,
  which are ports; `recoverAndReconcile`, which calls the modelled operations row by row.
- SignerTheorems.TerminalIsFinal: says nothing of whether a dropped transaction landed, since status and height are two
  separate observations.
- Candles.AggregateCandles: the division that finds an interval's start is exact; a timestamp that is not a number is not
  modelled; the platform's sort is a stable insertion sort.
- AuditRoots: the hash is an arbitrary function of 64-character digests; cleaning and canonical text of events is not
  modelled.
- Frames: decoding bytes as text and parsing them is one partial function.
- Sessions: sequence numbers are places in a list; runs, tool calls, evidence and search are not modelled.
- AgentRuntime.AgentRun.Run: a consumer that stops reading early, the persisted lifecycle records, usage counters and
  errors a port throws as runtime errors of its own are not modelled.
- HTTP, sockets, Telegram, MCP, the console, configuration, keystores and everything else outside the files named above.
