# Liquidity Hedge: a verified model

This project models the money-handling core of the Liquidity Hedge repository in Dafny and proves
what it promises over whole runs. `dafny verify dfyconfig.toml` checks everything.

## What is modelled

**The certificate ledger** (`Hedge*.dfy`). Quotes, payments and certificates are mutable records on
the heap, as in the original; every action of `CertificateLedger` runs its guards, changes records in
place, re-asserts I1 to I4 and appends a deep copy to the log. `HedgeTransitions` gives each action as
one step on values, `HedgeSafety` an invariant stronger than the runtime checks, `HedgeRuns` what
follows for every history, `HedgeReplay` and `HedgeTrace` what the log says about state and money.
`HedgeProvenance` and `HedgeAnswers` tell the ledger from its log alone: what stands behind every event of
every run, and what each action answers after it; `HedgePayoff` says what a settlement pays for. The
methods of the class are proved to take exactly those steps.

**Settlement** (`HedgePayouts`, `HedgeIntake`, `HedgeWalk`, `HedgeRunner`, `HedgeScheduler`). One cycle over that
ledger for arbitrary port answers, throwing ports included, proved against the intake of its scan that
`HedgeIntake` defines and the walk over the due certificates of `HedgeWalk`; the scheduler that repeats it;
and what holds of payouts over any number of cycles with anything between them. `HedgeScenarios` holds runs at actual inputs, `HedgePricing` the
rounding of the caps against the clamp of the payoff. `LedgerMutex` is the promise chain through which
the process reaches its ledger, as a state machine over arbitrary interleavings.

**Fee growth modulo 2^128** (`FeeGrowth`, `TornRead`, `SnapshotJob`, `FeeMeasure`). The pool is an
environment that accrues growth and crosses ticks, as in sections 6.3 and 6.4 of the Uniswap v3 Core
whitepaper; the readers run between its swaps.

**The protection pool of the emulator** (`ProtectionPool`, `PoolSafety`, `PoolRuns`, `PoolTerms`,
`PoolStore`) and **the value curve it settles on** (`PositionValue`, `PayoffExpectation`, in exact reals, a price given
by its square root; `LiquidityMath`, in integers). `PoolTerms` says what every request moves. The pool's payout is computed from the curve, so its
solvency rests on the proved bounds of the payoff and on no assumption about it.

**The order ledger**, told from its log alone in `OrderStory`, with the report job's own fold of that log
(`Order*.dfy`), **the Merkle commitment**
over the audit log for an arbitrary fixed-width hash (`AuditAnchor`), and **forward pagination**
(`CandlePaging`).

## Hypotheses

- The clock of a ledger never goes back. Quote ids and reference keys handed to `IssueQuote` are fresh.
- `0 <= uMaxBps <= 10000`, a non-negative fee-split rate, `protocolFeeBps <= 10000`.
  `HedgeSafety.LimitCoversExactly` shows the first bound is exact.
- Prices, premiums, caps, fees and transfers are integers where the code asserts it, of any size.
- One settlement cycle runs at a time. Between two reads of one pool fee growth stays below 2^128 and
  every boundary crossing pays a fee; `TornRead.FreeCrossingsFoolTheGate` shows why.
- In the emulator a template's range contains the entry price, and `Math.sqrt` is exact.

## Where code and documentation differ

- `pricing.ts` (132-135) says concavity makes the expected payoff positive. The payoff stops growing below
  the range, so prices far enough below it make it negative: `PayoffExpectation.FairValueNonNegativeExactly`
  gives the limit in both directions, `PayoffExpectation.UnfairSample` an instance. Prices above the range do no harm.
- `templates.ts` (62) calls the weekly hedge renewable at expiry. `getCertificate` answers with the first
  certificate on a mint, so a renewed one can never be settled and its cap stays reserved:
  `PoolRuns.SettlesExactlyIfFirst`, `PoolRuns.RenewedIsStuck`, and
  a run that gets there, `PoolRenewal.RenewalIsReachable`.
- `runner.ts` (137-139) says refunds are budgeted separately. Nothing bounds them: `HedgeScheduler.SettlementsAndRefunds`
  says exactly when a cycle stays within its budget, and `HedgeScenarios.OverspentCycle` is one that does not.
- `runner.ts` (131-139) checks the budget first so that no certificate is settled without its payout. A port
  that throws for a later certificate does just that to the earlier ones: `HedgeScheduler.FailureDrops` says
  when, `HedgeScheduler.DroppedStaysDropped` that no later cycle makes up for it, and
  `HedgeScenarios.StrandedSettlement` gives the run.
- `hedge-ledger.ts` (13-15) has one caller at a time, which `LedgerMutex.OneWriterInOrder` confirms. But the scheduler
  holds the ledger during its cycle (164), and its price port asks for it again (53) and waits, so the first due
  certificate halts it: `LedgerMutex.NestedCallHalts`. The cycle itself is modelled for ports that answer or throw.
- `position-value.ts` (298) says the payoff is non-negative exactly when the price is at or below entry. That is so
  exactly for an entry in the range and below its upper end: `PositionValue.PayoffSignExactly`.
- A payment for an order already marked expired leaves no trace: `OrderLedger.Ledger.ObservePayment` states
  exactly when a payment is credited, owed back or ignored, and `OrderSafety.LatePaymentSample` is such a log.

## Model

| member | source | states |
|---|---|---|
| `HedgeInvariants.ComputeUnmatchedFloat` | platform/packages/hedge/src/invariants.ts:11-15 | the loop returns the sum of the unmatched payments |
| `HedgeInvariants.ComputeActiveCollateral` | platform/packages/hedge/src/invariants.ts:17-21 | the loop returns the sum of the collateral of active certificates |
| `HedgeInvariants.ComputeActiveCapDown` | platform/packages/hedge/src/invariants.ts:23-27 | the loop returns the sum of the downside caps of active certificates |
| `HedgeInvariants.ComputeWorstObligations` | platform/packages/hedge/src/invariants.ts:29-35 | the loop returns the worst case of all active certificates |
| `HedgeInvariants.ComputeNetReserves` | platform/packages/hedge/src/invariants.ts:39-41 | treasury minus other people's money |
| `HedgeInvariants.CheckCert` | platform/packages/hedge/src/invariants.ts:67-91 | I2 for one certificate: no failure exactly when a consumed quote and an exact matched payment back it |
| `HedgeInvariants.CheckSettlement` | platform/packages/hedge/src/invariants.ts:109-127 | I4 for one certificate: no failure exactly when amount, payoff and identity are in bounds |
| `HedgeInvariants.CheckInvariants` | platform/packages/hedge/src/invariants.ts:48-130 | no failure exactly when I1a, I1b, I2, I3 and I4 hold of the state |
| `HedgeInvariants.SolventMeans` | platform/packages/hedge/src/invariants.ts:54-64 | I1 is that the treasury covers the unspent payments with all collateral, and with every worst case |
| `HedgeInvariants.BackedMeans` | platform/packages/hedge/src/invariants.ts:67-91 | I2 is a consumed quote and a spent payment of premium and collateral under its reference |
| `HedgeSafety.UtilisedMeansCovered` | platform/packages/hedge/src/invariants.ts:54-64 | exposure within the utilisation limit is at most the net reserves |
| `HedgeSafety.LimitCoversExactly` | platform/packages/hedge/src/ledger.ts:180-188 | a utilisation limit makes admitted exposure covered if and only if it is at most 10000 basis points |
| `HedgeSafety.InvImpliesChecks` | platform/packages/hedge/src/invariants.ts:48-130 | the ledger invariant implies every runtime check |
| `HedgeSafety.TimePasses` | platform/packages/hedge/src/ledger.ts:128-136 | the invariant survives any wait |
| `HedgeSafety.IssueKeeps` | platform/packages/hedge/src/ledger.ts:119-227 | issuing a quote keeps the invariant |
| `HedgeSafety.LapseKeeps` | platform/packages/hedge/src/ledger.ts:246-257 | lapsing a quote keeps the invariant |
| `HedgeSafety.ObserveKeeps` | platform/packages/hedge/src/ledger.ts:265-289 | crediting a payment keeps the invariant |
| `HedgeSafety.ActivateMoney` | platform/packages/hedge/src/ledger.ts:320-347 | activation adds the premium to net reserves and keeps utilisation and the per-buyer limit |
| `HedgeSafety.ActivateMints` | platform/packages/hedge/src/ledger.ts:291-347 | activation never creates a second claim on a mint although it looks at no other certificate |
| `HedgeSafety.ActivateKeeps` | platform/packages/hedge/src/ledger.ts:291-348 | activation keeps the invariant |
| `HedgeSafety.CheckpointKeeps` | platform/packages/hedge/src/ledger.ts:237-244 | recording a fee checkpoint keeps the invariant |
| `HedgeSafety.RefundKeeps` | platform/packages/hedge/src/ledger.ts:353-386 | a refund keeps the invariant |
| `HedgeSafety.LessExposureLessReserves` | platform/packages/hedge/src/ledger.ts:428-452 | taking at most a cap off both sides keeps the utilisation bound |
| `HedgeSafety.SettleKeeps` | platform/packages/hedge/src/ledger.ts:395-454 | a settlement keeps the invariant, utilisation included, though it is not re-tested there |
| `HedgeSafety.TransitionKeeps` | platform/packages/hedge/src/ledger.ts:113-454 | every commit keeps the invariant |
| `HedgeRuns.InvariantOfRun` | platform/packages/hedge/src/ledger.ts:100-111 | the invariant holds after every event of every history |
| `HedgeRuns.EveryStateIsSolvent` | platform/packages/hedge/src/ledger.ts:100-111 | in every state of every history exposure is within the limit and I1 to I4 hold, so no commit is ever rejected |
| `HedgeRuns.OneClaimPerMint` | platform/packages/hedge/src/ledger.ts:128-141 | per mint at most one live quote or one active certificate, never both |
| `HedgeRuns.BuyersStayWithinLimit` | platform/packages/hedge/src/ledger.ts:308-319 | no wallet ever exceeds its downside limit |
| `HedgeRuns.QuotesStayWithinLimits` | platform/packages/hedge/src/ledger.ts:142-168 | the open-quote and lifetime-quote limits hold at every moment |
| `HedgeRuns.OpenQuotesCounted` | platform/packages/hedge/src/ledger.ts:153-162 | the count the limit is held to is the number of the owner's open, valid quotes |
| `HedgeRuns.PayoffWithinCaps` | platform/packages/hedge/src/ledger.ts:417-421 | any valuation is clamped into the caps |
| `HedgeRuns.TreasuryCoversEachCert` | platform/packages/hedge/src/ledger.ts:428-431 | the treasury covers the worst case of each active certificate |
| `HedgeRuns.DueCertificateSettles` | platform/packages/hedge/src/ledger.ts:395-431 | a due certificate settles for every price and fee amount, paused or not: the treasury guard is dead code |
| `HedgeRuns.NoCertificateIsStuck` | platform/packages/hedge/src/ledger.ts:388-454 | the same from every state of every run, at every later time |
| `HedgeRuns.NoPaymentIsStuck` | platform/packages/hedge/src/ledger.ts:350-386 | an unmatched payment whose quote is past its validity is refundable in full |
| `HedgeRuns.RefundOrActivate` | platform/packages/hedge/src/ledger.ts:291-370 | refundable and activating are mutually exclusive |
| `HedgeReplay.ReplayFollowsTransition` | platform/packages/hedge/src/ledger.ts:483-545 | applying an event to the state before a commit gives the state after it |
| `HedgeReplay.ReplayIsExact` | platform/packages/hedge/src/ledger.ts:463-545 | every prefix of the log of a run replays, to the very state the ledger had then |
| `HedgeReplay.ReplayWholeLog` | platform/packages/hedge/src/ledger.ts:463-481 | the whole log replays to the live state |
| `HedgeReplay.LoadedLogPassesChecks` | platform/packages/hedge/src/ledger.ts:457-462 | any log that loads satisfies I1 to I4 after each event |
| `HedgeReplay.ReplayFailureSticks` | platform/packages/hedge/src/ledger.ts:463-481 | once replay has thrown no further event makes it load |
| `HedgeReplay.RefusedFacts` | platform/packages/hedge/src/ledger.ts:483-545 | a logged event is refused exactly when it opens the ledger anew or names a record that is not there |
| `HedgeTrace.PaymentCountsStep` | platform/packages/hedge/src/ledger.ts:271-289 | one commit keeps a signature's credits, refunds and activations in step with its record |
| `HedgeTrace.BooksStep` | platform/packages/hedge/src/ledger.ts:282-289 | one commit keeps log totals, record totals and counters equal |
| `HedgeTrace.RunIsTraced` | platform/packages/hedge/src/ledger.ts:259-454 | both hold after every run, with each activation backed |
| `HedgeTrace.ExactlyOnce` | platform/packages/hedge/src/ledger.ts:265-386 | a signature is credited at most once and spent at most once, by one activation or one refund |
| `HedgeTrace.CertificatesHaveTheirOwnPayment` | platform/packages/hedge/src/invariants.ts:66-91 | each certificate has its own exact payment from the position's owner, never refunded: stronger than I2 |
| `HedgeTrace.MoneyIsConserved` | platform/packages/hedge/src/invariants.ts:93-105 | treasury and totals equal the sums over payments, refunds and certificates |
| `HedgeProvenance.RunIsSourced` | platform/packages/hedge/src/ledger.ts:113-454 | in every state of every run the records are exactly those the log tells of: quotes issued, bought or lapsed, payments credited and spent, certificates activated and settled, paused or not |
| `HedgeAnswers.IssuedTerms` | platform/packages/hedge/src/ledger.ts:190-224 | an issued quote is valid for the time to live from its event, payable with its collateral, and has fresh keys; its protocol fee is rounded down |
| `HedgeAnswers.LiveExactly` | platform/packages/hedge/src/ledger.ts:128-136 | a quote is live if and only if its time, counted from its issue, is not up and it was not bought |
| `HedgeAnswers.LapsedTerms` | platform/packages/hedge/src/ledger.ts:246-257 | a quote lapses only after its time is up, and unbought |
| `HedgeAnswers.ActivatedTerms` | platform/packages/hedge/src/ledger.ts:291-348 | a certificate has a quote issued before and still in time, and a payment credited before of exactly its premium and collateral from the owner; it repeats the quote's terms and runs for the tenor from its activation |
| `HedgeAnswers.TenorLiesBetween` | platform/packages/hedge/src/ledger.ts:330-336 | between the activation and the settlement of a quote id the tenor has run, in every run |
| `HedgeAnswers.DueExactly` | platform/packages/hedge/src/ledger.ts:548-553 | a certificate is due if and only if it was activated, its tenor has run since, and it is not settled |
| `HedgeAnswers.SettledTerms` | platform/packages/hedge/src/ledger.ts:404-452 | the payoff of every settlement of every run pays for the fall of the position from its entry value to its value at the price held to the range: same sign, at a cap beyond it, less than one micro-dollar away between |
| `HedgeAnswers.RefundableExactly` | platform/packages/hedge/src/ledger.ts:357-371 | a payment is refundable if and only if no quote issued under its reference for exactly its amount is in time and unbought |
| `HedgeAnswers.RefundedTerms` | platform/packages/hedge/src/ledger.ts:353-386 | a refund returns in full a payment credited before and unspent, for the reason the log shows |
| `HedgeAnswers.RefundAnswers` | platform/packages/hedge/src/ledger.ts:353-371 | which refusal refundPayment gives, from the log alone |
| `HedgeAnswers.SettleAnswers` | platform/packages/hedge/src/ledger.ts:395-431 | which refusal settle gives, from the log alone; an activated, unsettled certificate is refused only before its tenor has run |
| `HedgeAnswers.IssueAnswers` | platform/packages/hedge/src/ledger.ts:121-188 | which refusal issueQuote gives, first reason first, from the log and the exposure |
| `HedgeAnswers.ActivatesExactly` | platform/packages/hedge/src/ledger.ts:291-324 | a payment activates if and only if the ledger is not paused, a quote waits for it from its sender, and buyer limit and reserves can carry one more certificate |
| `HedgePayoff.PayoffMeans` | platform/packages/hedge/src/ledger.ts:410-421 | for any valuation the payoff pays for the fall from entry to the price held to the range |
| `HedgePayoff.FeeSplitMeans` | platform/packages/hedge/src/ledger.ts:423 | the fee share is the greatest integer not above the rate times the fees |
| `HedgePayoff.SettlementMeans` | platform/packages/hedge/src/ledger.ts:404-454 | what an accepted settlement logs, pays, keeps and answers |
| `HedgePayoff.PayoffOnCurve` | platform/packages/hedge/src/ledger.ts:410-421 | on the exact value curve the payoff of the ledger is the payoff of the swap, less than two micro-dollars below it and less than one above |
| `HedgeScans.FindLiveQuote` | platform/packages/hedge/src/ledger.ts:128-136 | finds a live quote on a mint exactly when there is one |
| `HedgeScans.FindActiveCert` | platform/packages/hedge/src/ledger.ts:137-141 | finds an active certificate on a mint exactly when there is one |
| `HedgeScans.CountLiveQuotes` | platform/packages/hedge/src/ledger.ts:153-162 | counts an owner's live quotes |
| `HedgeScans.SumBuyerExposure` | platform/packages/hedge/src/ledger.ts:310-315 | sums a wallet's active downside caps |
| `HedgeScans.RefuseQuote` | platform/packages/hedge/src/ledger.ts:121-188 | the guards of issueQuote, in their order |
| `HedgeScans.MayActivate` | platform/packages/hedge/src/ledger.ts:291-324 | the guards of activation |
| `HedgeLedger.CertificateLedger.constructor` | platform/packages/hedge/src/ledger.ts:57-81 | a new ledger is valid and its log holds its opening event |
| `HedgeLedger.CertificateLedger.Commit` | platform/packages/hedge/src/ledger.ts:100-111 | appends exactly when the runtime checks pass |
| `HedgeLedger.CertificateLedger.Record` | platform/packages/hedge/src/ledger.ts:100-111 | for a step of the ledger the commit is never rejected |
| `HedgeLedger.CertificateLedger.SetPaused` | platform/packages/hedge/src/ledger.ts:114-117 | pausing changes the flag, appends one event and nothing else |
| `HedgeLedger.CertificateLedger.IssueQuote` | platform/packages/hedge/src/ledger.ts:120-227 | refuses for the first failing guard and changes nothing, or adds one quote and one event |
| `HedgeLedger.CertificateLedger.RecordFeeCheckpoint` | platform/packages/hedge/src/ledger.ts:237-244 | writes a checkpoint once; a second call is a no-op |
| `HedgeLedger.CertificateLedger.LapseExpiredQuotes` | platform/packages/hedge/src/ledger.ts:246-257 | lapses exactly the stale open quotes, one event each, in order |
| `HedgeLedger.CertificateLedger.ObservePayment` | platform/packages/hedge/src/ledger.ts:265-289 | duplicate: no-op; otherwise one credit, and an activation exactly when its guards hold |
| `HedgeLedger.CertificateLedger.TryActivate` | platform/packages/hedge/src/ledger.ts:291-348 | activates exactly when the guards hold, else changes nothing |
| `HedgeLedger.CertificateLedger.RefundPayment` | platform/packages/hedge/src/ledger.ts:353-386 | refuses for the first failing guard, or spends the payment and logs its full amount |
| `HedgeLedger.CertificateLedger.Settle` | platform/packages/hedge/src/ledger.ts:395-454 | refuses for the first failing guard, or settles for the clamped payoff less the fee share plus the collateral, as HedgePayoff.SettlementMeans spells out |
| `HedgeLedger.CertificateLedger.DueForSettlement` | platform/packages/hedge/src/ledger.ts:548-553 | the active certificates past expiry, in order |
| `HedgeLedger.CertificateLedger.ApplyReplay` | platform/packages/hedge/src/ledger.ts:483-545 | one logged event, re-checked: loads exactly as the fold says |
| `HedgeLedger.CertificateLedger.FromEvents` | platform/packages/hedge/src/ledger.ts:463-481 | loads exactly when the fold over the log does; the log of a run always loads and continues that run |
| `HedgePayouts.NothingIsPaidTwice` | platform/packages/hedge/src/runner.ts:64-70 | the payouts made for any stretch of a run's log have pairwise different keys: no quote id is settled and no signature refunded by two of them |
| `HedgePayouts.WholeSegment` | platform/packages/hedge/src/runner.ts:140-190 | quiet events, then settlements, then refunds make up the payouts of the cycle |
| `HedgeWalk.WalkWithinBudget` | platform/packages/hedge/src/runner.ts:131-161 | the settlements of a cycle never take more than min(balance, float cap), and none is made from a negative one |
| `HedgeWalk.WalkHandles` | platform/packages/hedge/src/runner.ts:143-159 | a completed walk defers exactly the divergent certificates and reports a shortfall exactly when it settles fewer than the rest |
| `HedgeWalk.WalkDecides` | platform/packages/hedge/src/runner.ts:143-160 | what the walk does with one certificate: deferred beyond the allowed divergence, else settled for the amount it is owed if both caps fit in what is left, else short by what they lack |
| `HedgeWalk.StopReason` | platform/packages/hedge/src/runner.ts:144-160 | negative fees stop a walk as bad fees, anything else as a port that threw |
| `HedgeWalk.StoppedExactly` | platform/packages/hedge/src/runner.ts:144-160 | the walk is cut short if and only if a certificate it reaches has a throwing port, or negative fees where it could be paid |
| `HedgeWalk.StopStrands` | platform/packages/hedge/src/runner.ts:137-169 | what a stop leaves settled and unpaid is what the walk settled before it: nothing if and only if nothing before it was payable |
| `HedgeWalk.SweepGrows` | platform/packages/hedge/src/runner.ts:171-190 | a later refund sweep takes at least as much |
| `HedgeIntake.TakeNew` | platform/packages/hedge/src/runner.ts:110-126 | a new signature is credited next in line; its payment is spent if and only if the guards of activation hold, and then its certificate carries the checkpoint the port answered |
| `HedgeIntake.ScannedIsCredited` | platform/packages/hedge/src/runner.ts:110-127 | the same for every first transfer of a whole scan, to its end |
| `HedgeIntake.ObservedIsCount` | platform/packages/hedge/src/runner.ts:112 | as many payments are observed as there are new signatures in the scan, and no other payment appears or changes |
| `HedgeIntake.StaleQuotesLapse` | platform/packages/hedge/src/runner.ts:130 | no quote stays open past its time, and none in time is touched |
| `HedgeRunner.TakeOne` | platform/packages/hedge/src/runner.ts:111-126 | observing one transfer, with the checkpoint of what it activates, is one step of the intake |
| `HedgeRunner.DueSettles` | platform/packages/hedge/src/runner.ts:143-160 | settling a due certificate never throws and owes the payout the walk foresees |
| `HedgeRunner.ObservePhase` | platform/packages/hedge/src/runner.ts:108-128 | the scan up to its first negative amount is taken in transfer by transfer, as the intake says: state, log, report and time |
| `HedgeRunner.SettlePhase` | platform/packages/hedge/src/runner.ts:140-169 | exactly the walk over the certificates due at the scan: payouts, deferrals, shortfall and stop; one logged settlement per payout |
| `HedgeRunner.RefundPhase` | platform/packages/hedge/src/runner.ts:171-190 | one payout per refund, together between what a sweep at the start and one at the end would take; every payment left is dust or still matchable; the dust list is exact |
| `HedgeRunner.PayPhase` | platform/packages/hedge/src/runner.ts:192-210 | each positive payout is executed once, in order; failures are exactly those reported |
| `HedgeRunner.RunSettlementCycle` | platform/packages/hedge/src/runner.ts:88-215 | takes in what it scanned; ends early if and only if it cannot begin to settle or its walk is stopped, and then pays nothing and leaves the walk's settlements in the log; otherwise report, payouts and log match one for one, settlements first |
| `HedgeScheduler.CycleMatches` | platform/packages/hedge/src/runner.ts:140-211 | completed or not, a cycle owes what its part of the log says, one payout per settlement or refund |
| `HedgeScheduler.ScanIsObserved` | platform/packages/hedge/src/runner.ts:109-130 | before a cycle settles anything every scanned signature has its payment, the report counts the new ones, and no quote that was stale at the start is open |
| `HedgeScheduler.ScanActivates` | platform/packages/hedge/src/runner.ts:110-126 | a new payment is credited in the log with its own terms; it is spent if and only if the guards hold in the state the log leads to, and then certificate and checkpoint are there and the report names it |
| `HedgeScheduler.NothingIsLeftSilently` | platform/packages/hedge/src/runner.ts:143-190 | a certificate left active is reported as deferred or there is a shortfall; a payment left unspent is listed as dust or a quote may wait for it |
| `HedgeScheduler.CyclesApart` | platform/packages/hedge/src/runner.ts:64-70 | over any number of cycles, with anything between them, no two payouts of two cycles or of one have the same key |
| `HedgeScheduler.FailsExactly` | platform/packages/hedge/src/runner.ts:104-160 | a cycle fails if and only if the scan or the balance throws, a transfer is negative, or a certificate its walk reaches stops it |
| `HedgeScheduler.FailureDrops` | platform/packages/hedge/src/runner.ts:131-169 | a failed cycle drops the settlements before the certificate that stopped it, all of them logged: nothing if and only if none of those was payable |
| `HedgeScheduler.DroppedStaysDropped` | platform/packages/hedge/src/runner.ts:131-169 | no cycle, earlier or later, hands on a payout that a failed cycle dropped |
| `HedgeScheduler.OutboxDistinct` | platform/apps/web/src/lib/server/settlement-scheduler.ts:179-189 | no key is in the outbox twice |
| `HedgeScheduler.SettlementsAndRefunds` | platform/packages/hedge/src/runner.ts:137-190 | with its refunds a cycle stays within its budget if and only if they fit in what the settlements left; settlements alone always do |
| `HedgeScheduler.Scheduler.constructor` | platform/apps/web/src/lib/server/settlement-scheduler.ts:39-43 | a scheduler starts with no cursor and an empty outbox |
| `HedgeScheduler.Scheduler.RunCycleOnce` | platform/apps/web/src/lib/server/settlement-scheduler.ts:112-200 | one tick: the cursor moves and the positive payouts are queued exactly when the cycle completes; no key is ever queued twice, and what a failed tick settled is never queued |
| `HedgeScheduler.BetweenCycles` | platform/apps/web/src/lib/server/hedge-ledger.ts:13-15 | whatever else is done to the ledger between two ticks, what the scheduler knows of its cycles still holds |
| `HedgeScenarios.StrandedSettlement` | platform/packages/hedge/src/runner.ts:143-169 | a run with two due certificates, of which the second has no price: the first is settled in the log, unpaid, and no longer due |
| `HedgeScenarios.StrandedCycle` | platform/packages/hedge/src/runner.ts:143-169 | the cycle that meets it fails and drops that payout |
| `HedgeScenarios.RefundsBeyondBudget` | platform/packages/hedge/src/runner.ts:137-141 | a run with one unknown payment and an empty wallet: the sweep takes 100 where the budget is nothing |
| `HedgeScenarios.OverspentCycle` | platform/packages/hedge/src/runner.ts:137-190 | the cycle that meets it owes 100 in refunds |
| `HedgePricing.ClampIsIdle` | platform/packages/hedge/src/pricing.ts:113-114 | for any valuation between those at the ends of the range the truncated payoff is within the rounded caps, though entry was floored |
| `HedgePricing.CapsCover` | platform/packages/hedge/src/pricing.ts:140-143 | each cap is the least whole number of micro-dollars that covers the move to its end of the range |
| `HedgePricing.ClampIsDeadCode` | platform/packages/hedge/src/ledger.ts:416-421 | on the exact value curve the clamp of settle changes nothing, whatever the entry and settlement prices |
| `HedgePricing.RoundingDownFallsShort` | platform/packages/hedge/src/pricing.ts:141-142 | collateral rounded down would be exceeded |
| `LedgerMutex.OneWriterInOrder` | platform/apps/web/src/lib/server/hedge-ledger.ts:1-15 | one callback at a time and in the order of the calls; the disk always holds a prefix of the ledger's events, and all of them when no callback is open |
| `LedgerMutex.HaltsExactly` | platform/apps/web/src/lib/server/hedge-ledger.ts:230-244 | with a call outstanding, no call ever returns again if and only if a callback awaits its own task or one behind it |
| `LedgerMutex.NestedCallHalts` | platform/apps/web/src/lib/server/settlement-scheduler.ts:53 | a callback that awaits another withHedge halts the ledger for good, in every state of every run |
| `FeeGrowth.WrapSub` | platform/packages/core/src/market-data/fees-owed.ts:32-34 | the wrap-safe difference |
| `FeeGrowth.ThreeCases` | lh-protocol/protocol-src/orchestrator/lifecycle/fee-refresher.ts:110-148 | for any counters and a proper range the below/above form is the documented three-case formula modulo 2^128, never negative before the remainder, in both implementations |
| `FeeGrowth.AccrueInside` | lh-protocol/protocol-src/orchestrator/lifecycle/fee-refresher.ts:126-148 | accrual moves the inside value by the growth in range and by nothing out of range |
| `FeeGrowth.MoveInside` | lh-protocol/protocol-src/orchestrator/lifecycle/fee-refresher.ts:126-148 | crossing a boundary leaves the inside value alone |
| `FeeGrowth.AccumulatorIsExact` | lh-protocol/protocol-src/orchestrator/lifecycle/fee-refresher.ts:110-148 | along any run the inside value moves by the growth in range, modulo 2^128 |
| `FeeGrowth.DeltaIsEarned` | lh-protocol/protocol-src/orchestrator/lifecycle/fee-refresher.ts:155-166 | so the wrapped difference of two readings is the growth in range |
| `TornRead.OutsideOverTime` | platform/services/ops-jobs/src/position-snapshot-job.ts:84-91 | while no fee is paid the outside counters stand still |
| `TornRead.GateIsSound` | platform/packages/portfolio/src/discovery.ts:165-196 | what passes the double-read gate is the inside growth of one single instant |
| `TornRead.RestingPoolPasses` | platform/packages/portfolio/src/discovery.ts:165-196 | the gate lets through exactly the pools that read the same at the end as at the start |
| `TornRead.FreeCrossingsFoolTheGate` | platform/packages/portfolio/src/discovery.ts:165-196 | a proper run with free crossings passes the gate with a value of no instant |
| `SnapshotJob.ArrayHoldsTick` | platform/services/ops-jobs/src/position-snapshot-job.ts:140-147 | the tick array fetched for a tick holds it exactly when the tick is aligned |
| `SnapshotJob.ReadAccounts` | platform/services/ops-jobs/src/pool-snapshot-job.ts:123-134 | the batched answers come back in the order of the addresses |
| `SnapshotJob.StablePools` | platform/services/ops-jobs/src/position-snapshot-job.ts:114-131 | the stable pools are exactly those unmoved between the two reads |
| `SnapshotJob.CapturePositionSnapshots` | platform/services/ops-jobs/src/position-snapshot-job.ts:42-175 | each tracked position is captured or missing exactly as its own accounts say |
| `SnapshotJob.ReportIsPartition` | platform/services/ops-jobs/src/position-snapshot-job.ts:133-175 | every tracked position is in the report once, in order, with its own snapshot or as missing |
| `SnapshotJob.RowMeans` | platform/services/ops-jobs/src/position-snapshot-job.ts:133-173 | a snapshot is of its own position and pool at the time of the run; exactly when one is missing or the run throws |
| `SnapshotJob.CapturedIsOneInstant` | platform/services/ops-jobs/src/position-snapshot-job.ts:84-131 | a captured position carries the inside growth of one single instant |
| `FeeMeasure.MeasurePositionFees` | platform/packages/market-data/src/position-fees.ts:91-155 | the loop is the fold over the intervals, and answers nothing exactly when no interval is usable |
| `FeeMeasure.MeasuredIsSums` | platform/packages/market-data/src/position-fees.ts:117-153 | every total is a sum over exactly the usable intervals; any other interval adds one to the counter of its reason and nothing else |
| `FeeMeasure.MeasuredExactly` | platform/packages/market-data/src/position-fees.ts:155 | there is a measurement if and only if an interval is usable |
| `FeeMeasure.ComputeRangeFeeYield` | platform/packages/market-data/src/pool-snapshots.ts:102-170 | the loop is the fold over the weighted intervals |
| `FeeMeasure.YieldIsSums` | platform/packages/market-data/src/pool-snapshots.ts:120-168 | every total is a sum over the intervals of the position's share, whole in range, half across a boundary, diluted when asked for |
| `FeeMeasure.TwoPathsAgree` | platform/packages/market-data/src/pool-snapshots.ts:102-170 | wholly inside, or wholly outside on one side, both measurements give the same native totals across wrap-around |
| `FeeMeasure.MeasuredBelowPending` | platform/packages/market-data/src/position-fees.ts:117-153 | floors over n intervals lose at most n-1 units, for either token |
| `FeeMeasure.IntervalsLoseLittle` | lh-protocol/protocol-src/orchestrator/lifecycle/fee-refresher.ts:155-166 | the measured total is at most n-1 units below one end-to-end reading of the pending fees |
| `PositionValue.ValueIsHoldings` | lh-protocol/protocol-src/pricing-engine/position-value.ts:48-65 | V is what the position holds of the two tokens, at the price |
| `PositionValue.UnderEveryTangent` | lh-protocol/protocol-src/pricing-engine/position-value.ts:48-65 | V lies under every one of its tangents |
| `PositionValue.TouchesTangent` | lh-protocol/protocol-src/pricing-engine/position-value.ts:48-65 | and touches the one at the clamped price: the three pieces fit |
| `PositionValue.Concave` | lh-protocol/protocol-src/pricing-engine/position-value.ts:48-65 | V is concave in the price over the whole half-line |
| `PositionValue.RisesContinuously` | lh-protocol/protocol-src/pricing-engine/position-value.ts:48-65 | V never falls as the price rises and moves continuously |
| `PositionValue.PayoffBetweenCaps` | lh-protocol/protocol-src/pricing-engine/position-value.ts:296-297 | the payoff lies in [-Cap_up, Cap_down] for every entry price |
| `PositionValue.PayoffReachesCaps` | lh-protocol/protocol-src/pricing-engine/position-value.ts:292-294 | for an entry in the range it is Cap_down at and below the range and -Cap_up at and above it |
| `PositionValue.PayoffFalls` | lh-protocol/protocol-src/pricing-engine/position-value.ts:297 | the payoff never rises with the price |
| `PositionValue.PayoffSign` | lh-protocol/protocol-src/pricing-engine/position-value.ts:298 | for an entry in the range and below its upper end, the payoff is non-negative exactly at or below entry |
| `PositionValue.PayoffSignExactly` | lh-protocol/protocol-src/pricing-engine/position-value.ts:298 | that rule holds for every settlement price if and only if pL <= entry < pU |
| `PositionValue.UpsideBelowDownside` | lh-protocol/protocol-src/pricing-engine/position-value.ts:196-199 | for an arithmetically symmetric range Cap_up is below Cap_down |
| `PayoffExpectation.ExpectedAboveTangent` | lh-protocol/protocol-src/pricing-engine/pricing.ts:132-135 | the expected payoff is at least what the tangent at entry promises |
| `PayoffExpectation.UnfairBelowLimit` | lh-protocol/protocol-src/pricing-engine/pricing.ts:132-135 | past the limit a distribution of two prices has a negative expected payoff |
| `PayoffExpectation.FairValueNonNegativeExactly` | lh-protocol/protocol-src/pricing-engine/pricing.ts:132-135 | the expected payoff is non-negative for every distribution from a lowest price up if and only if the tangent at entry is there not below V at the lower end |
| `PayoffExpectation.UnfairSample` | lh-protocol/protocol-src/pricing-engine/pricing.ts:132-135 | an actual range, entry and distribution with a negative expected payoff |
| `PayoffExpectation.FairValueFromRange` | lh-protocol/protocol-src/pricing-engine/pricing.ts:132-135 | in particular when no price is below the range |
| `PoolSafety.OwnedAtMostTotal` | lh-protocol/protocol-src/event-audit/store.ts:195-217 | a holder's shares are at most the share count |
| `PoolSafety.MinReservesExact` | lh-protocol/protocol-src/pool-manager/pool.ts:155-166 | the rounded-up withdrawal guard is exactly the utilisation inequality |
| `PoolSafety.HeadroomExact` | lh-protocol/protocol-src/pool-manager/pool.ts:205-213 | the headroom test is exactly the utilisation inequality |
| `PoolSafety.SecondTestRedundant` | lh-protocol/protocol-src/pricing-engine/pricing.ts:223-235 | the second utilisation test of a purchase never fails |
| `PoolSafety.DepositKeeps` | lh-protocol/protocol-src/pool-manager/pool.ts:73-106 | a deposit keeps the pool invariant |
| `PoolSafety.WithdrawBounded` | lh-protocol/protocol-src/pool-manager/pool.ts:143-153 | a withdrawal never divides by zero and never overdraws |
| `PoolSafety.WithdrawKeeps` | lh-protocol/protocol-src/pool-manager/pool.ts:134-181 | a withdrawal keeps the pool invariant |
| `PoolSafety.BuyKeeps` | lh-protocol/protocol-src/orchestrator/certificates.ts:84-200 | a purchase keeps the pool invariant |
| `PoolSafety.PayoutWithinCap` | lh-protocol/protocol-src/orchestrator/certificates.ts:273-281 | the payout in whole micro-USDC is at most the cap reserved, from the value curve |
| `PoolSafety.SettleKeeps` | lh-protocol/protocol-src/orchestrator/certificates.ts:244-316 | a settlement keeps the pool invariant |
| `PoolSafety.RegisterKeeps` | lh-protocol/protocol-src/orchestrator/index.ts:155-188 | registering a position keeps the pool invariant |
| `PoolSafety.ReleaseKeeps` | lh-protocol/protocol-src/orchestrator/index.ts:190-213 | releasing a position keeps the pool invariant |
| `PoolRuns.InvariantOfRun` | lh-protocol/protocol-src/orchestrator/certificates.ts:128-188 | in every book of every run shares sum up, active caps sum up, reserves cover them at the limit, and an unowned pool is empty |
| `PoolRuns.WithdrawExactly` | lh-protocol/protocol-src/pool-manager/pool.ts:134-166 | a withdrawal is accepted exactly when owned and covered |
| `PoolRuns.BuyExactly` | lh-protocol/protocol-src/orchestrator/certificates.ts:84-143 | a purchase is accepted exactly when the position is free and the reserves carry the cap |
| `PoolRuns.SettlesExactlyIfFirst` | lh-protocol/protocol-src/orchestrator/certificates.ts:251-262 | a due active certificate settles if and only if it is the first written on its position |
| `PoolRuns.RenewedIsStuck` | lh-protocol/protocol-src/event-audit/store.ts:137-158 | a renewed certificate stays active through every later run, its cap reserved, settlement refused |
| `PoolRuns.BoughtAgainIsRenewed` | lh-protocol/protocol-src/orchestrator/certificates.ts:84-200 | a purchase on a position that had a certificate before is accepted like any other, and is a renewal |
| `PoolRenewal.RenewalIsReachable` | lh-protocol/protocol-src/orchestrator/certificates.ts:251-262 | a run of five requests from the empty pool that ends with a renewed certificate no one can settle |
| `PoolRuns.PriceNeverFalls` | lh-protocol/protocol-src/pool-manager/pool.ts:59-67 | no operation but a settlement lowers reserves per share |
| `PoolRuns.OthersCannotDilute` | lh-protocol/protocol-src/pool-manager/pool.ts:59-67 | whatever others do short of settling, an idle holder's claim never falls |
| `PoolRuns.RoundTripLoses` | lh-protocol/protocol-src/pool-manager/pool.ts:84-89 | a deposit withdrawn at once never returns more than was put in |
| `PoolRuns.MoneyIsConserved` | lh-protocol/protocol-src/orchestrator/certificates.ts:295-303 | over every run reserves are deposits less withdrawals plus what the certificates brought |
| `PoolTerms.PayoutMeans` | lh-protocol/protocol-src/orchestrator/certificates.ts:273-281 | the payout is less than one micro-dollar from the payoff of the swap and of its sign, the whole cap at and below the range, not negative at or below entry |
| `PoolTerms.LowerPaysNoLess` | lh-protocol/protocol-src/orchestrator/certificates.ts:273-281 | a lower settlement price never pays less |
| `PoolTerms.SettlementMeans` | lh-protocol/protocol-src/orchestrator/certificates.ts:251-303 | what an accepted settlement pays, keeps, frees and closes |
| `PoolTerms.DepositMeans` | lh-protocol/protocol-src/pool-manager/pool.ts:73-106 | a deposit is accepted if and only if it buys a share, and mints as many as it pays for, rounded down |
| `PoolTerms.WithdrawalMeans` | lh-protocol/protocol-src/pool-manager/pool.ts:143-181 | a withdrawal pays what the burned shares are worth, rounded down |
| `PoolTerms.SharePriceMeans` | lh-protocol/protocol-src/pool-manager/pool.ts:59-67 | the share price is a million shares' worth, rounded down |
| `PoolTerms.EscrowExactly` | lh-protocol/protocol-src/orchestrator/index.ts:155-213 | a position is registered if and only if none is on its mint, released if and only if by its owner, locked and unprotected |
| `PoolTerms.PurchaseMeans` | lh-protocol/protocol-src/orchestrator/certificates.ts:113-188 | a purchase writes one certificate on the terms of position and range, for the natural cap and a fee rounded down, running for the tenor |
| `PoolTerms.TenorLiesBetween` | lh-protocol/protocol-src/orchestrator/certificates.ts:258-262 | between the purchase and the settlement of a certificate its tenor has run, in every run |
| `PoolStore.StateStore.constructor` | lh-protocol/protocol-src/event-audit/store.ts:53-73 | a new store is empty and sound |
| `PoolStore.StateStore.AddShares` | lh-protocol/protocol-src/event-audit/store.ts:199-203 | one holder has that much more, every other holder what they had, and the holdings together grow by it |
| `PoolStore.StateStore.RemoveShares` | lh-protocol/protocol-src/event-audit/store.ts:205-217 | refuses an overdraft and changes nothing, or takes that much from one holder, drops the holder when nothing is left, and leaves the others alone |
| `PoolStore.InitPool` | lh-protocol/protocol-src/pool-manager/pool.ts:26-46 | initialises once, to an empty pool |
| `PoolStore.DepositUsdc` | lh-protocol/protocol-src/pool-manager/pool.ts:73-106 | refuses and changes nothing, or takes the deposit step; the share price does not fall |
| `PoolStore.WithdrawUsdc` | lh-protocol/protocol-src/pool-manager/pool.ts:134-181 | refuses and changes nothing, or takes the withdrawal step; removing the shares never throws |
| `PoolStore.RegisterLockedPosition` | lh-protocol/protocol-src/orchestrator/index.ts:155-188 | refuses a known mint, or appends a locked position |
| `PoolStore.ReleasePosition` | lh-protocol/protocol-src/orchestrator/index.ts:190-213 | refuses a protected position, or unlocks it |
| `PoolStore.BuyCertificate` | lh-protocol/protocol-src/orchestrator/certificates.ts:84-200 | refuses for the first failing guard, or takes the purchase step; the quote never fails after the headroom test |
| `PoolStore.SettleCertificate` | lh-protocol/protocol-src/orchestrator/certificates.ts:244-316 | refuses for the first failing guard, or takes the settlement step, whose payout PoolTerms.SettlementMeans gives; the pool is always there |
| `LiquidityMath.RootUnique` | lh-protocol/protocol-src/utils/math.ts:22-31 | there is only one integer square root |
| `LiquidityMath.StepAbove` | lh-protocol/protocol-src/utils/math.ts:26-29 | a Newton step lands at or above the root |
| `LiquidityMath.IntegerSqrt` | lh-protocol/protocol-src/utils/math.ts:22-31 | terminates with r*r <= n < (r+1)*(r+1) |
| `LiquidityMath.PriceE6ToSqrtPriceX64` | lh-protocol/protocol-src/utils/math.ts:77-80 | the greatest r with r*r*10^9 <= price*2^128, despite the inner floor |
| `LiquidityMath.LargestThatFits` | lh-protocol/protocol-src/pricing-engine/position-value.ts:255-274 | the estimate is the largest liquidity whose exact token need fits |
| `LiquidityMath.AmountsClamp` | lh-protocol/protocol-src/pricing-engine/position-value.ts:91-115 | amounts are those at the clamped price |
| `LiquidityMath.AmountsMove` | lh-protocol/protocol-src/pricing-engine/position-value.ts:91-115 | A never rises and B never falls with the price |
| `LiquidityMath.RoundTrip` | lh-protocol/protocol-src/pricing-engine/position-value.ts:245-274 | amounts to liquidity and back never yields more of either token |
| `LiquidityMath.EmptyRange` | lh-protocol/protocol-src/pricing-engine/position-value.ts:262-268 | an empty range divides by zero above it and answers zero below |
| `AuditAnchor.MerkleRoot` | platform/packages/hedge/src/anchoring.ts:43-55 | the nested loops compute the recursive root |
| `AuditAnchor.UpAt` | platform/packages/hedge/src/anchoring.ts:46-53 | node i of the next level is its two children hashed together, or the odd last one as it is |
| `AuditAnchor.UpCollides` | platform/packages/hedge/src/anchoring.ts:46-53 | two different levels with one next level have two different pairs, one from each, with one hash, promoted odd node included |
| `AuditAnchor.RootBindsLeaves` | platform/packages/hedge/src/anchoring.ts:38-55 | root and count commit to the leaves: otherwise two different inputs hashed on the way, one in each computation, have one hash |
| `AuditAnchor.RootBindsLog` | platform/packages/hedge/src/anchoring.ts:16-19 | and to every event of the log, in order: the inputs are pairs of the two trees or events of the two logs |
| `AuditAnchor.RootDecidesLog` | platform/packages/hedge/src/anchoring.ts:16-19 | so, when no two inputs hashed for the two logs collide, equal roots of equal counts mean equal logs, and conversely |
| `AuditAnchor.RootAloneIsAmbiguous` | platform/packages/hedge/src/anchoring.ts:19 | without the count the root does not commit |
| `AuditAnchor.UnequalWidthsAreAmbiguous` | platform/packages/hedge/src/anchoring.ts:49 | nor with leaves of unequal width |
| `CandlePaging.SortByTime` | platform/packages/market-data/src/ingest.ts:62 | the values of the map in order of time |
| `CandlePaging.FetchOhlcvPaged` | platform/packages/market-data/src/ingest.ts:27-64 | against any fetcher: at most 200 requests, candles in the window, sorted, unique |
| `CandlePaging.FullPage` | platform/packages/market-data/src/ingest.ts:55-59 | after a full page the loop goes on past exactly the candles received |
| `CandlePaging.CollectsPages` | platform/packages/market-data/src/ingest.ts:40-60 | from any page on the loop collects the earliest candles of the rest of the window, as many as the pages left hold |
| `CandlePaging.PagingReturnsEarliest` | platform/packages/market-data/src/ingest.ts:27-64 | against a provider of earliest candles, at least two a page, paging returns the earliest of the window, as many as 200 pages hold |
| `CandlePaging.PagingIsComplete` | platform/packages/market-data/src/ingest.ts:1-10 | so it returns what one unbounded request would if and only if the window fits in 200 pages |
| `CandlePaging.OneCandlePagesStopShort` | platform/packages/market-data/src/ingest.ts:58 | with one candle a page it stops after the first |
| `OrderLedger.TaggedAmount` | platform/packages/commerce/src/payment.ts:42-48 | gives up exactly when all 64 draws are taken, and never returns a taken amount |
| `OrderLedger.Ledger.OpenAmounts` | platform/packages/commerce/src/order-ledger.ts:75-82 | the amounts claimed by payable orders |
| `OrderLedger.Ledger.CreateOrder` | platform/packages/commerce/src/order-ledger.ts:84-112 | the new order asks for an amount no payable order asks for |
| `OrderLedger.Ledger.ObservePayment` | platform/packages/commerce/src/order-ledger.ts:161-207 | exactly when a payment is credited, refunded or ignored |
| `OrderLedger.Ledger.Fulfil` | platform/packages/commerce/src/order-ledger.ts:213-237 | grants exactly for a paid product that is not a pre-order |
| `OrderLedger.Ledger.ReissueDownloadToken` | platform/packages/commerce/src/order-ledger.ts:136-154 | grants anew exactly for a fulfilled order |
| `OrderLedger.Ledger.RedeemDownloadToken` | platform/packages/commerce/src/order-ledger.ts:265-279 | consumes a valid grant: afterwards no token checks |
| `OrderLedger.Ledger.ExpireStale` | platform/packages/commerce/src/order-ledger.ts:281-292 | marks exactly the stale orders, one event each |
| `OrderLedger.Ledger.FromEvents` | platform/packages/commerce/src/order-ledger.ts:308-363 | rebuilds exactly when the log replays; a written log always does, to the same ledger |
| `OrderLog.LogReplays` | platform/packages/commerce/src/order-ledger.ts:308-363 | no prefix of a written log fails to replay |
| `OrderSafety.StepKeeps` | platform/packages/commerce/src/order-ledger.ts:161-292 | every event the ledger may write keeps the order invariant |
| `OrderSafety.InvariantOfLog` | platform/packages/commerce/src/order-ledger.ts:74-207 | payable orders ask for different amounts, a signature is on at most one order, nothing is delivered without the exact payment |
| `OrderSafety.RedeemedWereIssued` | platform/packages/commerce/src/order-ledger.ts:253-279 | grants are redeemed at most as often as issued |
| `OrderSafety.OneRedemptionPerGrant` | platform/packages/commerce/src/order-ledger.ts:253-279 | between two redemptions a grant is issued |
| `OrderSafety.ExpiredOrderIgnoresPayment` | platform/packages/commerce/src/order-ledger.ts:166-167 | an order marked expired takes no payment into the log, however exact |
| `OrderSafety.LatePaymentSample` | platform/packages/commerce/src/order-ledger.ts:161-207 | an actual log: an exact payment is neither credited nor owed back after the sweep, and would have been owed back a moment before |
| `OrderStory.LogIsSourced` | platform/packages/commerce/src/order-ledger.ts:308-363 | in the state of every written log each order, payment, grant and used signature is what the log tells |
| `OrderStory.CreditedMeans` | platform/packages/commerce/src/order-ledger.ts:161-207 | a payment is credited to an order created before, for exactly its amount, in time, under a new signature |
| `OrderStory.RefundOwedMeans` | platform/packages/commerce/src/order-ledger.ts:168-200 | a refund is owed for a payment under a new signature that is of another amount or too late |
| `OrderStory.ExpiredMeans` | platform/packages/commerce/src/order-ledger.ts:281-292 | an order is marked expired after its time |
| `OrderStory.GrantedMeans` | platform/packages/commerce/src/order-ledger.ts:213-237 | what is granted is no pre-order, and its exact payment was credited in time |
| `OrderStory.RedeemedMeans` | platform/packages/commerce/src/order-ledger.ts:253-279 | a redemption uses the token of a grant issued before, while it lasts |
| `OrderReport.SummariseOrdersNeedingAttention` | platform/services/ops-jobs/src/data-report.ts:445-496 | the job's loops compute its fold and its list |
| `OrderReport.PutMatches` | platform/services/ops-jobs/src/data-report.ts:461-479 | setting an order in the ledger is setting its entry in the job |
| `OrderReport.ReportAgrees` | platform/services/ops-jobs/src/data-report.ts:449-486 | the job's separate fold lists the ledger's orders with the same status, amount and product |
| `OrderReport.NothingOverlooked` | platform/packages/commerce/src/order-ledger.ts:294-305 | every refund due and every paid order is on the job's list, and so whatever the ledger's own list names |
| `OrderReport.NothingInvented` | platform/services/ops-jobs/src/data-report.ts:481-495 | what is on the job's list is a refund due or a paid order of the ledger, with its amount and product |

## Left out

- Floating point, NaN and the range of safe integers: money is integers of any size, valuations are real numbers or arbitrary functions.
- Fair values, Simpson quadrature, heuristic pricing, regime updates, bootstraps: a premium is any non-negative answer.
- HedgeLedger.CertificateLedger.IssueQuote: returns the quote as a value, not the live record, and its terms carry no pricing breakdown and no term-sheet hash.
- HedgeLedger.CertificateLedger.FromEvents: the id source is not part of the ledger; ids are handed to the actions that use them.
- HedgeRunner.RunSettlementCycle: a port answers or throws; one that never answers, and what an operator does about a failed payout, are left out, as is the payout executor.
- HedgeScheduler.Scheduler.RunCycleOnce: the port adapters, environment variables and timestamps of outbox lines are left out; the flag against overlapping ticks is not needed, as one tick is one step here.
- LedgerMutex.OneWriterInOrder: writing to disk always succeeds, and the values callbacks return are left out.
- HedgePricing.ClampIsDeadCode: in exact arithmetic; what floating point does to a valuation is left out.
- HedgeInvariants.CheckInvariants: failures are values of a datatype; their wording is left out.
- Maps: a Map whose keys are a field of its values is the sequence of its values in insertion order.
- SnapshotJob.CapturePositionSnapshots: the decoders are left out; an account is already decoded or garbage. Price and in-range fields are functions of the row.
- TornRead.GateIsSound: discovery.ts is modelled through the gate and the reconstruction only; its fee display, which is not gated, is left out.
- FeeMeasure.MeasurePositionFees: the quote-value ceiling is an arbitrary test and the quote-denominated totals and bootstrap interval are left out.
- Pool records: the emulator's positions and certificates are values in sequences that the methods reassign; aliasing of the records that its getters hand out is not captured.
- PoolStore.SettleCertificate: the template lookup is left out, since a template once added is never removed or changed; the range is kept in the certificate.
- PoolStore.BuyCertificate: record-keeping fields of the certificate that no later operation reads are left out, as are template and regime storage, persistence to disk and the event log of the emulator.
- OrderLedger.Ledger.CreateOrder: the two clock readings of a call are two arguments, the second not before the first; reference keys, wallet, e-mail and the catalogue lookup of an unknown product are left out; secrets and ids are handed in.
- OrderReport.SummariseOrdersNeedingAttention: works on decoded events; file reading, torn lines and the wording of the list are left out.
- CandlePaging.FetchOhlcvPaged: the coverage report is left out.
- RPC, HTTP, Solana instructions, account byte decoders, web pages, charts and scripts: foreign calls or display.
- Canonical JSON, viability formulas and hit-probability arithmetic: would only add straight-line members.
