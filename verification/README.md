# Verified model of the billing engine's books and state machines

This project models the parts of Recurso where money can go wrong, and proves
what the code promises about them: "the books always reconcile".

* **The books.** A double-entry ledger whose rows are inserted once per
  (reference, code, occurrence); the recognition schedules; the state machine of
  issue, schedule, pay, recognize, refund and write-off over whole runs; the
  month-end tie-out of deferred revenue; write-off and recovery cycles; the
  Customer Credit liability.
* **Refunds.** Proportional tax allocated by cumulative rounding, and the refund
  protocol with racing requests, approvals, gateway outcomes, storage failures
  and webhooks.
* **Recovery and retention.** Dunning with leases, dunning campaigns, and the
  cancel flow, each with racing workers that may crash or come back late.
* **Derived views.** Accounting sync, MRR by entity, entitlements, the credit
  statement, GSTR-3B, and the re-runnable import.

Protocols are state machines over their atomic steps, one database transaction
or one external call each (exceptions are under "Left out"): in the books too,
creating a schedule, filling it, each read and each event update of a write-off
or of a refund's unwind is a step that may fail, and others may come between.
Results about protocols quantify over every run.  Where the source changes state
step by step, a class with the same loops and early exits is proved against the
specification functions the lemmas speak about.  Rows of the table that begin
with "corollary" follow from the definitions or from the rows around them; those
that begin with "step" say what a single statement does, column by column, so that
the results over runs speak about the right steps.

Assumptions.  Money is an unbounded integer; `float64` and `math.Round` become
exact fractions rounded half away from zero.  Identifiers and times are abstract
integers, calendar months are positions in a schedule.  A failed call has no
effect, except that an accounting provider's answer may be lost.  SQL statements
and transactions are atomic.  Letter case is folded on ASCII.

`dafny verify dfyconfig.toml` checks everything.

## Where the code and its promises differ

Each of these is proved: a lemma shows the failure, from the initial state unless
it says otherwise, and the one after "exactly when" or "exactly what" is an
if-and-only-if or an equation for all inputs.

* The deferred tie-out ("0 when the books tie") fails after a subscription
  invoice is written off once all its revenue was recognized: the write-off then
  posts no code-22 leg, and the awaiting-payment bucket takes the invoice for one
  whose reversal was never posted (`FullyRecognizedWriteOffBreaksTie`; exactly
  when: `OrderlyRunTiesIff`, `WriteOffKeepsTieIff`).  It also fails when a
  schedule was never created for a paid invoice, or created without its event
  rows, when an event is claimed or failed, and when a claim overtakes an unwind
  (exactly what: `TieOut`, `UnwoundDriftIff`).  A fully recognized write-off is
  not recovered when it is paid after all (exactly when: `RecoveryRestoresIff`).
* Recognition races write-offs and refunds: an event claimed before is posted
  behind them, and Deferred goes negative (`WriteOffRaceOverdraws`,
  `UnwindRaceOverdraws`; exactly when: `OverdrawnBehindWriteOffIff`,
  `WriteOffOverdrawsIff`, `OverdrawnBehindRefundIff`, and before an unwind begins
  `UnwindOverdrawsIff`).
* Approving a maker's refund does not repeat the over-refund guard, so twice the
  paid amount can leave (`ApprovalCanExceedPaid`); and a maker's refund whose
  outcome could not be recorded has moved money that nothing counts
  (`MovedIsCounted`, `UnrecordedRefundExceedsPaid`).  Exactly when the recorded
  refunds stay within the limit: `LimitHoldsIff`; the money itself:
  `MoneyHoldsIff`; a guard that would suffice: `GuardedApprovalsSuffice`.
* Racing refunds can reverse more tax than the invoice carried, by less than one
  minor unit per refund (`RacingRunOverReverses`, `RacingWorkersOverReverse`;
  exactly when they do not, on any invoice: `SlicesExactIff`).
* The legs of a refund that fails after the gateway accepted it stay posted, and
  the refund that replaces it reverses the tax again
  (`FullRefundTwiceOverReverses`; exactly when: `RefundFitsIff`, `TaxHoldsIff`).
* The reconciler's credit figure includes notes that await approval or were
  rejected (exactly when: `ReconcilerExpectsTooMuch`).
* A cancel-flow step is claimed for good before its effect: a final confirmation
  that fails strands the session (`FailedConfirmationStrands`, from any session
  at its last step; exactly when it can still end: `CanEndIff`), and a row
  written back late reopens a claimed step (`StaleWriteRepeatsOffer`; exactly
  when: `WriteReopensIff`).
* A dunning pass overwrites a payment that arrives during it
  (`PaymentDuringPassIsOverwritten`; exactly when: `Dunning.PaidStaysIff`), and
  an instance that stalls for a whole retry interval voids the next one's lease
  (`StalledInstanceVoidsLease`; exactly when: `LeasesHoldIff`).
* A campaign step can go out twice: when a worker crashes after sending it or
  fails to write that it did (exactly when, without overlap: `SentOnceIff`), and
  when a worker outlives its lease (`OverlapSendsTwice`, from any due execution;
  exactly when, in every run: `SentOnceWheneverInTurn`, `OutOfTurnIff`).  A late
  write also reopens an execution that has ended (exactly when:
  `EndedReopensIff`).  And a step that raises the payment wall writes the whole
  invoice back as it was read, over a payment that arrived meanwhile
  (`PaymentDuringStepIsOverwritten`; exactly when: `Campaign.PaidStaysIff`).
* A create at the accounting provider whose answer is lost is repeated, so an
  entity gets a second object (`LostAnswerDuplicates`; the same for a failing
  mapping, `FailedMappingDuplicates`; exactly when: `OneLiveIff`; at most one for
  each such or failed call: `OneLiveObject`).
* An edit between listing and pushing is lost to every later incremental sync
  (`LostEdit`, from any state in step; exactly when: `PushKeepsInStepIff`).
* The comment on MRR rounding allows a drift of one minor unit per further entity;
  the bound is half of that, and it is reached (`RowsDriftFromTotal`,
  `DriftReached`).
* A dry run of a first import reports failures that the real run does not have
  (`DryRunMisreportsFirstImport`; exactly when: `RunFailsNothingIff`, and by how
  much: `DryRunForesees`), and a subscription that cancel-sync scheduled stays
  scheduled when a later file lists it again (`ReappearingStaysScheduled`).

One weakness is latent.  Code 7 is keyed by the invoice, so a second credit
application to one invoice would be taken for a replay
(`SecondApplicationOverstates`; exactly when: `CustomerCreditTiesIff`).  No present
caller applies credit twice: each applies it to an invoice it has just created
(internal/service/invoice.go:617, internal/service/subscription.go:158,
internal/service/mandate.go:521).

## Model

| member | source | states |
|---|---|---|
| TaxAllocation.PortionOfWholeInvoice | internal/service/credit_note.go:22-39 | refunding the whole invoice reverses exactly its tax |
| TaxAllocation.SliceBounds | internal/service/credit_note.go:41-51 | a slice lies between 0 and the refund it belongs to |
| TaxAllocation.SlicesTelescope | internal/service/credit_note.go:41-51 | for any sequential refunds the slices sum to the portion of the running total |
| TaxAllocation.SeriesNeverOverReverses | internal/service/credit_note.go:26-51 | no series reverses more than the invoice tax, and one that reaches the total reverses it exactly |
| TaxAllocation.SplitInvariance | internal/service/credit_note.go:41-51 | corollary: splitting a refund in two changes nothing in what is reversed |
| TaxAllocation.RacingSliceWithinOneUnit | internal/service/credit_note.go:46-70 | whatever prior total it read, a slice is strictly within one minor unit of its exact share |
| TaxAllocation.RacingDrift | internal/service/credit_note.go:46-70 | n racing refunds drift by less than n minor units together |
| TaxAllocation.RacingOverReversal | internal/service/credit_note.go:46-70 | n racing refunds within the total over-reverse the tax by at most n - 1 |
| TaxAllocation.ComponentsTrackPortion | internal/service/credit_note.go:309-327 | IGST, CGST and SGST portions stay within one unit of the tax portion, and meet it when fully refunded |
| TaxAllocation.ComponentSlicesTrackSlice | internal/service/credit_note.go:309-327 | one refund's component slices differ from its tax slice by at most two |
| TaxAllocation.ComponentSeriesTracksTax | internal/service/credit_note.go:309-327 | over a series they stay within one unit, and are exact once the invoice is fully refunded |
| TaxTiling.SlicesExactIff | internal/service/credit_note.go:41-70 | racing refunds reverse exactly their portion on every invoice they fit into if and only if what they read tiles: some order of them is the one in which each would have read the total of those before it |
| TaxTiling.ExcessIsDefectTax | internal/service/credit_note.go:41-70 | what racing refunds reverse too much is the tax of the units of money that were read as refunded too often or too seldom |
| TaxTiling.TilingIsExact | internal/service/credit_note.go:41-70 | when the reads tile, the slices add up to the portion of the total, for any tax and any invoice |
| Ledger.TrialBalance | internal/adapter/db/ledger_repository.go:439-516 | total debits equal total credits over any rows |
| Ledger.BalanceIsNetOfTotals | internal/adapter/db/ledger_repository.go:439-516 | the signed balance of an account is the net of its two running totals |
| Ledger.ReplayChangesNothing | internal/adapter/db/ledger_repository.go:439-516 | posting any batch again changes nothing |
| Ledger.LedgerStore.ApplyLedgerTx | internal/adapter/db/ledger_repository.go:439-516 | a row is inserted once per key, and stored balances stay what the rows add up to |
| Ledger.LedgerStore.CreateTransactions | internal/adapter/db/ledger_repository.go:419-437 | all legs post or none does |
| Ledger.LedgerStore.RecomputeBalances | cmd/demo_seed/main.go:405-416 | rebuilds every stored balance from the rows, and changes nothing when they were right |
| RevenueSchedule.AllocationConserves | internal/service/revrec.go:531-569 | the monthly events add up to exactly the scheduled total |
| RevenueSchedule.CalculateMonthlyAllocation | internal/service/revrec.go:531-569 | the month loop yields one event per month, each but the last the total divided by the months (rounded down), the last what is left |
| RevenueSchedule.SeedAllocation | cmd/demo_seed/main.go:937-943 | the seeder's way of writing the split yields the same events |
| RevenueSchedule.ReleasedAfter | internal/service/revrec.go:531-569 | so after k months, short of the last, k equal parts are released |
| RevenueSchedule.UnwindTailConserves | internal/service/revrec.go:206-270 | exactly the unwound amount leaves the pending events; every other status keeps its total |
| RevenueSchedule.UnwindTailTouchesPending | internal/service/revrec.go:206-270 | only pending events change, and only to pending or canceled |
| RevenueSchedule.UnwindTailLatestFirst | internal/service/revrec.go:206-270 | an earlier event is untouched while later ones hold enough |
| RevenueSchedule.CancelPendingConserves | internal/service/revrec.go:112-137 | canceling empties the pending events and touches no earned or claimed one |
| RevenueSchedule.ScheduleStore.RemoveFromTail | internal/service/revrec.go:206-270 | the in-place tail loop computes the unwound schedule |
| RevenueSchedule.ScheduleStore.UnwindOnRefund | internal/service/revrec.go:206-270 | takes out of Deferred no more than is still pending, and cancels an emptied schedule |
| RevenueSchedule.ScheduleStore.CancelPendingForInvoice | internal/service/revrec.go:112-137 | voids the pending events of an active schedule in place |
| RevenueSchedule.TailEditsPerform | internal/service/revrec.go:206-270 | the single updates of an unwind, if nothing comes between them, compute the unwound schedule |
| RevenueSchedule.VoidEditsPerform | internal/service/revrec.go:112-137 | the single updates of a write-off, likewise, cancel every pending event |
| RevenueSchedule.PerformHeld | internal/adapter/db/revrec_repository.go:244-250 | one update touches pending events only, and takes out what was planned if its event is as it was read |
| MonthlyRelease.SchedulingSpreads | internal/service/revrec.go:382-480 | scheduling an invoice spreads its pre-tax value evenly over its months, at least over one |
| MonthlyRelease.ReleasedByMonth | internal/service/revrec.go:68-96 | in the books: once an invoice is scheduled and the worker has done the first k months, exactly k equal parts are recognized and the rest is still deferred |
| DeferredBooksInvariant.StepInv | internal/service/ledger.go:324-405 | every statement of issuing, scheduling, paying, recognizing, writing off, refunding and unwinding, in any interleaving and failing anywhere, keeps the books explained |
| DeferredBooksInvariant.WriteOffBalanced | internal/service/ledger.go:560-674 | the write-off legs move every account as the invoice's state does, whatever was recognized since it was read |
| DeferredBooksInvariant.RefundBalanced | internal/service/credit_note.go:477-514 | the cash and tax legs of a refund move every account as the invoice's state does |
| DeferredBooksInvariant.EditBalanced | internal/service/revrec.go:206-270 | an update of one event row, whether it finds the event or not, moves no account, and the state stays well formed |
| DeferredBooksInvariant.ReversalBalanced | internal/service/credit_note.go:493-514 | the reversal of an unwind moves Deferred to the expense by what was planned |
| DeferredBooksInvariant.RecognizeBalanced | internal/service/revrec.go:68-96 | recognizing an event moves Deferred to Recognized by its amount |
| DeferredBooksInvariant.EvolveFresh | internal/adapter/db/ledger_repository.go:439-516 | no leg of a business step is ever swallowed as a replay of an earlier one |
| BooksOutcomes.OneOffIsEarned | internal/service/revrec.go:382-480 | step: a paid one-off invoice earns all of its pre-tax value at once |
| BooksOutcomes.ClaimIs | internal/service/revrec.go:68-72 | step: the worker's claim of a pending event changes its status and posts nothing |
| BooksOutcomes.OneClaimAtATime | internal/service/revrec.go:68-72 | step: an event that is not pending cannot be claimed |
| BooksOutcomes.FailedRecognitionIs | internal/service/revrec.go:68-96 | step: a recognition that cannot be posted marks its event failed and posts nothing |
| BooksOutcomes.RequeueRestores | internal/service/revrec.go:68-96 | step: claiming an event and putting it back leaves the books as they were |
| BooksOutcomes.UnreadIsDeferred | internal/service/ledger.go:78-107 | step: when what was recognized cannot be read, the write-off takes all of the pre-tax value for deferred |
| BooksOutcomes.UnpostedIsOver | internal/service/ledger.go:660-674 | step: a write-off whose legs cannot be posted is over, and changes nothing else |
| BooksOutcomes.FailedVoidIsOver | internal/service/revrec.go:127-137 | step: a cancellation that fails half way is over, and changes nothing else |
| BooksOutcomes.FailedEditIsDropped | internal/service/revrec.go:206-270 | step: an unwind whose update fails is abandoned, and posts nothing |
| DeferredBooksInvariant.EveryInvoiceExplained | internal/service/ledger.go:324-405 | in every reachable state the rows of each invoice, with its lost ones, come to what its business state says, in every account |
| DeferredBooksInvariant.EveryAccountExplained | cmd/demo_seed/main.go:866-885 | and each account, with its lost rows, is the sum over the invoices |
| ClosePack.TieOut | internal/service/close_pack.go:32-44 | the unexplained difference is exactly: claimed and failed events, plus value no schedule was ever filled for, plus the drift of unwinds, less what write-offs stranded, less fully recognized write-offs, less lost Deferred posts |
| ClosePack.OrderlyRunTiesIff | internal/service/close_pack.go:146-149 | when statements succeed and do not overtake each other, and at the report nothing is half done and no schedule is missing, the books tie if and only if no subscription invoice was written off fully recognized |
| ClosePack.EditMisses | internal/service/revrec.go:206-270 | an update of an unwind misses nothing when its event is as it was read, and everything when the event was claimed, recognized or voided meanwhile |
| ClosePack.UnwoundDriftIff | internal/service/revrec.go:206-270 | corollary: a refund whose unwind ran to its end leaves the tie-out alone if and only if it missed nothing |
| ClosePack.BackfillMovesBuckets | cmd/backfill_schedules/main.go:60-72 | backfilling moves value from awaiting to scheduled, and leaves the tie-out alone if and only if the event rows were written too |
| ClosePack.BackfillMovesReport | cmd/backfill_schedules/main.go:60-72 | on the reports before and after: backfilling an open invoice lowers what awaits payment by its pre-tax value and raises what is scheduled by it when the event rows were written; the difference is unmoved if and only if they were, or there was nothing to schedule |
| ClosePack.BackfillIsIdempotent | cmd/backfill_schedules/main.go:109-125 | corollary: running the backfill again changes nothing, even after one that left a schedule without events |
| ClosePack.DeferredRollforward | internal/adapter/db/ledger_repository.go:84-107 | opening plus added less released is the balance at the end of the period |
| ClosePack.GenerateDeferred | internal/service/close_pack.go:125-151 | field by field: the closing balance, the total of the pending events, the pre-tax value of the invoices whose schedule awaits payment (0 unless both readers are wired), the difference, short of what was posted after the period, and Ties exactly when it is 0 |
| ClosePack.ReadyToCloseIff | internal/service/close_pack.go:172-183 | over any ledger a period is ready to close exactly when reconciliation finds nothing |
| ClosePack.BlockersAre | internal/service/close_pack.go:172-183 | step: each blocker is listed exactly when there is something to report, with its figures |
| WriteOffBooks.WriteOffRuns | internal/service/ledger.go:560-674 | the statements of a write-off, uninterrupted, split the pre-tax value at what is recognized, post the legs and cancel what is pending |
| WriteOffBooks.SameWriteOff | internal/service/ledger.go:560-674 | on the ledger that is the first cycle of the write-off and recovery model |
| WriteOffBooks.WriteOffKeepsTieIff | internal/adapter/db/invoice_repository.go:27-58 | it keeps the tie-out exactly when no event is claimed or failed, the schedule is not an empty row, and something was still deferred |
| WriteOffBooks.FullyRecognizedWriteOffBreaksTie | internal/adapter/db/invoice_repository.go:27-58 | a run of succeeding statements, for any amount, after which the books do not tie |
| RecognitionRace.OverdrawnBehindWriteOffIff | internal/service/ledger.go:605-674 | once the write-off legs are posted, no continuation overdraws the invoice's Deferred if and only if what is pending or claimed fits into what Deferred still carries |
| RecognitionRace.WriteOffOverdrawsIff | internal/service/revrec.go:68-96 | after an uninterrupted write-off: if and only if no event with an amount was claimed when it began |
| RecognitionRace.OverdrawnBehindRefundIff | internal/service/revrec.go:206-270 | once the unwinds of a paid invoice are over, no continuation without another one overdraws it if and only if what is pending or claimed fits into what Deferred still carries |
| UnwindRace.UnwindOverdrawsIff | internal/service/revrec.go:206-270 | before the unwind of a refund of a paid and scheduled invoice: no continuation without another one overdraws it if and only if the most it can reverse (nothing without an active schedule, else the lesser of the net and of what is pending or claimed) fits into what Deferred carries beyond the pending and claimed |
| RecognitionRace.MarginIs | internal/service/revrec.go:206-270 | which is what abandoned unwinds took, less what finished ones missed, plus the failed events |
| RecognitionRace.WriteOffRaceOverdraws | internal/service/ledger.go:605-674 | a run, for any amount, in which every statement succeeds and Deferred Revenue ends at minus the claimed event |
| RecognitionRace.UnwindRaceOverdraws | internal/service/revrec.go:206-270 | the same behind an unwind that an event was claimed under |
| RefundBooks.RefundAccountsNeverNegative | internal/service/credit_note.go:477-514 | over every orderly run, late refund failures included, Deferred and Refunds never go negative |
| RefundBooks.RefundStepMoves | internal/service/credit_note.go:477-514 | a gateway refund takes the whole out of cash, its slice out of Tax Payable, and the net into the expense |
| RefundBooks.UnwindRuns | internal/service/revrec.go:206-270 | the statements of an unwind, uninterrupted, take what is pending of the net off the tail, cancel a schedule they empty, and post exactly that |
| RefundBooks.UnwindMoves | internal/service/credit_note.go:493-514 | and so move that much, and no other account, from Deferred to the expense |
| RefundBooks.UnwindKeepsTie | internal/service/credit_note.go:493-514 | and leave the tie-out where it was |
| RefundBooks.ExpenseOverRun | internal/service/credit_note.go:477-514 | over every run, races and failures included, the expense ends as the sum of the net that each unwind could no longer take out of Deferred |
| TaxBooks.FullyRefundedOwesNoTax | internal/service/credit_note.go:26-51 | without late failures, the tax rows of a fully refunded invoice cancel; and when all invoices are fully refunded, Tax Payable is empty |
| TaxBooks.RefundFitsIff | internal/service/credit_note.go:477-492 | a refund keeps the invoice's part of Tax Payable from going negative if and only if the bounced tax plus the portion of all refunds with it is within the tax |
| TaxBooks.TaxHoldsIff | internal/service/credit_note.go:477-492 | it stays non-negative throughout a run if and only if every refund fits in that way |
| TaxBooks.TaxNeverNegative | internal/service/credit_note.go:26-51 | without late failures every refund fits, so over every run Tax Payable never goes negative |
| TaxBooks.FullRefundTwiceOverReverses | internal/service/credit_note.go:557-611 | a run, for any total and tax, in which a full refund fails late and is repeated: Tax Payable ends at minus the tax |
| WriteOffRecovery.RecoveryRestoresIff | internal/service/ledger.go:677-760 | recovery restores every balance if and only if something was deferred and no stale bad-debt leg is inverted |
| WriteOffRecovery.WriteOffReverses | internal/service/ledger.go:605-662 | account by account: the receivable goes by the whole total, Deferred Revenue by what was still deferred, bad debt grows by what was recognized, Tax Payable falls by the tax, and nothing else moves |
| WriteOffRecovery.WrittenOffOnce | internal/service/ledger.go:567-590 | a second write-off before a recovery posts nothing |
| WriteOffRecovery.NothingDeferredNothingRecovered | internal/service/ledger.go:691-712 | with nothing deferred, recovery does nothing |
| WriteOffRecovery.CycleSettles | internal/service/ledger.go:567-590 | a recovered cycle is complete and the next one can start |
| WriteOffRecovery.OtherPostKeepsSettled | internal/service/ledger.go:567-590 | corollary: other postings do not disturb the cycles |
| WriteOffRecovery.CyclesRestore | internal/service/ledger.go:677-760 | any number of write-off and recovery cycles restores every balance while recognition only grows |
| RefundProtocol.OneRefundPerNote | internal/service/credit_note.go:823-879 | over every interleaving a note has at most one gateway refund, and once money moved it stays issued |
| RefundProtocol.StepInv | internal/service/credit_note.go:991-1071 | each atomic step keeps every note held by at most one worker |
| RefundProtocol.MovedIsCounted | internal/service/credit_note.go:85-90 | money that moved and stayed is active, except for a maker's unrecorded refund |
| RefundProtocol.DirectRefundsWithinPaid | internal/adapter/db/credit_note_repository.go:36-93 | in every run directly issued refunds, counted or moved, never exceed what was paid |
| RefundProtocol.LimitHoldsIff | internal/service/credit_note.go:842-880 | the refunds recorded as active stay within what was paid throughout a run if and only if every approved one fits when its outcome is recorded |
| RefundProtocol.MoneyHoldsIff | internal/service/credit_note.go:991-1071 | the money with the customer, unrecorded refunds included, stays within what was paid throughout a run if and only if every refund, just before its gateway call, fits beside the money already out |
| RefundProtocol.CommitmentHoldsIff | internal/service/credit_note.go:842-880 | all that is paid out or committed stays within what was paid if and only if every approval and every direct refund fits beside it when it is made |
| RefundProtocol.GuardedApprovalsSuffice | internal/service/credit_note.go:842-880 | with the guard repeated at approvals over everything committed, no more than was paid leaves, whatever fails or races afterwards |
| RefundProtocol.UnrecordedRefundExceedsPaid | internal/service/credit_note.go:862-877 | a run that keeps the recorded limit throughout while twice what was paid is with the customer |
| RefundProtocol.ApprovalCanExceedPaid | internal/service/credit_note.go:842-880 | a run that refunds twice what was paid |
| RefundProtocol.RacingWorkersDrift | internal/service/credit_note.go:57-70 | in every run within the limit, n posted refunds reverse the tax to within n minor units of its share |
| RefundProtocol.RacingWorkersOverReverse | internal/service/credit_note.go:57-70 | without late failures they over-reverse it by less than one unit each |
| RefundProtocol.RacingRunOverReverses | internal/service/credit_note.go:57-70 | a run of two direct refunds, every statement succeeding, that reverses 2 of a tax of 1 |
| RefundProtocol.OneAtATimeIsExact | internal/service/credit_note.go:41-51 | posted one after another, what the workers read tiles, and the slices are exactly the portion of the running total, within the tax |
| RefundOutcomes.TotalsAre | internal/service/credit_note.go:85-90 | the sums the refund rows speak of, in the notes' columns |
| RefundOutcomes.RequestIff | internal/adapter/db/credit_note_repository.go:36-93 | a request is let through exactly when, with all that counts as refunded, it stays within what was paid; a direct one counts at once, a maker's not yet |
| RefundOutcomes.FailureEventFrees | internal/service/credit_note.go:557-611 | a failure event for a pending refund marks it failed and takes exactly its amount out of what counts and out of the money with the customer |
| RefundOutcomes.SuccessEventSettles | internal/service/credit_note.go:557-611 | a success event marks it processed and moves neither sum |
| RefundOutcomes.OtherEventIgnored | internal/service/credit_note.go:557-590 | any other event changes nothing |
| RefundOutcomes.EventsSettleOnce | internal/service/credit_note.go:557-611 | corollary: after the first event no further one for the note changes anything |
| RefundOutcomes.FreedAmountIsRefundable | internal/service/credit_note.go:557-611 | a refund of up to the freed amount is let through after a failure event |
| RefundOutcomes.RefusalFrees | internal/service/credit_note.go:1009-1018 | a refund the gateway refuses moves no money and no longer counts |
| RefundOutcomes.AcceptanceCounts | internal/service/credit_note.go:1014-1033 | one it accepts moves its amount once and counts from then on, whoever issued it |
| RefundOutcomes.UnrecordedOutcome | internal/service/credit_note.go:1014-1031 | step: an outcome that cannot be recorded leaves the note as it was, but for the money moved |
| RefundOutcomes.ClaimIff | internal/service/credit_note.go:842-880 | step: of the workers approving a note, the one whose update finds it pending goes on |
| RefundOutcomes.FailedLoadGivesBack | internal/service/credit_note.go:842-880 | an approval that cannot load the invoice leaves the notes as they were |
| RefundOutcomes.FailedManualGivesBack | internal/service/credit_note.go:842-880 | so does one that cannot be recorded as to be made by hand |
| RefundOutcomes.RevertIs | internal/service/credit_note.go:862-877 | step: giving back reopens an issued note only |
| RefundOutcomes.ManualCounts | internal/service/credit_note.go:842-880 | without a gateway payment, an approved refund is to be made by hand, and counts |
| RefundOutcomes.RejectionIs | internal/service/credit_note.go:899-938 | step: a rejection takes a pending note, and only its status |
| RefundOutcomes.RejectedStays | internal/service/credit_note.go:899-938 | over every run a rejected request stays rejected and moves no money |
| RefundOutcomes.PostReads | internal/service/credit_note.go:57-70 | step: the legs are posted once, with the prior total of everything else that counts, or 0 when the read fails |
| CustomerCredit.DrawDownConserves | internal/adapter/db/credit_note_repository.go:212-259 | what is applied leaves the spendable sum, and nothing else does |
| CustomerCredit.DrawDownEach | internal/adapter/db/credit_note_repository.go:225-259 | a note is drawn only for its own scope, and is used exactly when emptied |
| CustomerCredit.DrawDownOldestFirst | internal/adapter/db/credit_note_repository.go:205-239 | a note is touched only once every older applicable one is used up |
| CustomerCredit.CustomerCreditExplained | internal/service/credit_note.go:198-210 | in every run the account plus due, failed and swallowed posts is what customers can spend |
| CustomerCredit.CustomerCreditBound | internal/service/ledger.go:1103-1117 | with every post tried and none failed, the account is never below what can be spent, and equals it exactly when no post was taken for a replay |
| CustomerCredit.CustomerCreditTiesIff | internal/service/ledger.go:1103-1117 | with every post tried and none failed, in whatever order, it equals what can be spent if and only if no application drew credit for an invoice that an earlier one had drawn for |
| CustomerCredit.CreditCostExplained | internal/service/ledger.go:1068-1117 | in every run the cost of credit is what is still owed plus what settled invoices |
| CustomerCredit.SecondApplicationOverstates | internal/service/ledger.go:1097-1117 | a second application to an invoice would be swallowed and overstate the account |
| CustomerCredit.ReconcilerExpectsTooMuch | internal/adapter/db/ledger_repository.go:163-176 | the reconciler's sum is right if and only if no note is pending or rejected |
| CustomerCredit.CreditNoteStore.ApplyAdjustmentCredits | internal/adapter/db/credit_note_repository.go:212-292 | one transaction draws down oldest first and only issued notes of that customer, entity and currency, using all of them up when they do not suffice; its audit rows add up to what it applied, and the invoice carries that much and is paid exactly when it is covered (or was paid) |
| CustomerCredit.CreditNoteStore.ClaimExpiredCredits | internal/adapter/db/credit_note_repository.go:385-425 | a sweep takes as many due notes as its limit allows, earliest expiry first: issued, with a balance and an expiry at or before now; all others are as they were, and below the limit none of that kind is left |
| CustomerCredit.CreditNoteStore.ExpireDueCredits | internal/service/credit_note.go:795-821 | a sweep of at most 500, with its legs, is a run of expiry steps, says the same of the notes' columns, and posts for each what it held |
| CustomerCredit.ExpiresIff | internal/adapter/db/credit_note_repository.go:385-425 | an expiry step takes a note exactly when it is issued with a balance and an expiry at or before now |
| CustomerCredit.DrawDownColumns | internal/adapter/db/credit_note_repository.go:212-292 | by the notes' columns: whom an application draws from, and that it uses up all of them when they do not suffice |
| CreditOutcomes.CreationIs | internal/service/credit_note.go:355-371 | step: direct credit is spendable and its liability due at once, a maker's waits |
| CreditOutcomes.ApprovalReleases | internal/service/credit_note.go:880-888 | step: an approval makes exactly the note's balance spendable |
| CreditOutcomes.RejectionIs | internal/service/credit_note.go:899-938 | step: a rejection takes a pending note and posts nothing |
| CreditOutcomes.VoidIs | internal/service/credit_note.go:947-989 | step: voiding takes an issued note with a balance, out of the spendable sum and, under code 20, out of the liability |
| CreditOutcomes.ExpiryIs | internal/service/credit_note.go:805-821 | step: expiry the same, under code 18 |
| CreditOutcomes.ApplicationIs | internal/adapter/db/credit_note_repository.go:212-292 | an application spends what is available up to the invoice's total and settles exactly that much of the receivable |
| CreditOutcomes.PostIs | internal/adapter/db/ledger_repository.go:439-516 | step: a due leg is tried once, and becomes a row unless its post fails or its key is there already |
| CreditOutcomes.FinalStays | internal/service/credit_note.go:880-989 | over every run, a rejected, used, expired or void note never changes again |
| CancelFlow.EffectAtMostOnce | internal/adapter/db/cancel_flow_repository.go:297-317 | racing submissions apply a step's effect at most once while no overtaken row is written back, and the index never goes back |
| CancelFlow.StepOncePerClaim | internal/service/cancel_flow.go:157-172 | in every run, stale writes included, an effect spends a claim of its own |
| CancelFlow.ExactlyOneEnding | internal/service/cancel_flow.go:178-241 | one at a time, a session ends with exactly one of an offer and a cancellation, and has neither before |
| CancelFlow.CanEndIff | internal/service/cancel_flow.go:128-241 | a session in progress that nobody works on has a run that ends it if and only if an offer or a confirmation is at or after its index |
| CancelFlow.FailedConfirmationStrands | internal/service/cancel_flow.go:202-219 | a final confirmation that fails leaves the session in progress for good, whatever is submitted next |
| CancelFlow.WriteReopensIff | internal/adapter/db/cancel_flow_repository.go:274-295 | while no write was stale, a write puts the step index back if and only if it was overtaken, and opens a claimed step if and only if, besides, the row it writes is in progress |
| CancelFlow.StaleWriteReclaims | internal/adapter/db/cancel_flow_repository.go:274-317 | corollary: the step such a write reopens can then be claimed a second time |
| CancelFlow.StaleWriteRepeatsOffer | internal/adapter/db/cancel_flow_repository.go:274-295 | a run from the start, in any flow that begins with a survey and an offer, in which every statement succeeds and the offer is applied twice |
| CancelFlow.SessionStore.ClaimStep | internal/adapter/db/cancel_flow_repository.go:297-317 | the conditional update wins exactly when the row still expects the step |
| CancelFlow.SessionStore.SubmitStep | internal/service/cancel_flow.go:128-241 | a submission that meets no other takes the protocol's four steps |
| CancelOutcomes.SubmissionIff | internal/service/cancel_flow.go:128-170 | step: a submission is taken up exactly when the session is in progress and expects that step |
| CancelOutcomes.ClaimIs | internal/adapter/db/cancel_flow_repository.go:297-317 | step: the claim moves the session past the step exactly when it still expects it |
| CancelOutcomes.ActIs | internal/service/cancel_flow.go:257-375 | step: only an accepted offer and a confirmation have an effect, and what each step leaves to write |
| CancelOutcomes.WriteIs | internal/adapter/db/cancel_flow_repository.go:274-295 | step: the row is written once, as the step left it |
| CancelOutcomes.DoneIsOver | internal/service/cancel_flow.go:128-241 | step: a submission that is over does nothing more |
| Campaign.NoStepSentEarly | internal/service/dunning_campaign.go:77-91 | in every reachable state no step is sent before its delay from the start |
| Campaign.PassesInOrder | internal/service/dunning_campaign.go:141-232 | without overlap each pass advances the index by one, in order, and the execution ends after one pass per step |
| Campaign.EndedStaysEnded | internal/service/dunning_campaign.go:252-270 | without overlapping workers, an exhausted or recovered execution sends nothing more |
| Campaign.SentOnceIff | internal/service/dunning_campaign.go:112-139 | without overlap, each step is sent at most once if and only if nothing is sent after a worker that had sent its step crashed or failed to write that it did |
| Campaign.SentOnceWheneverInTurn | internal/service/dunning_campaign.go:112-139 | over every run, overlaps included, no step is skipped, and each is sent at most once if and only if every worker that sends one is in turn |
| Campaign.OutOfTurnIff | internal/service/dunning_campaign.go:141-232 | a worker gets out of turn exactly by claiming a row that is behind what has gone out, or by another sending after it claimed |
| Campaign.OneClaimPerLease | internal/adapter/db/dunning_campaign_repository.go:296-341 | of many runners one claims a due execution per lease, and a crashed one's step comes back |
| Campaign.OverlapSendsTwice | internal/service/dunning_campaign.go:112-139 | from any due execution, a worker that outlives its lease makes the step go out twice, although nothing fails |
| Campaign.EndedReopensIff | internal/service/dunning_campaign.go:215-232 | corollary: an ended execution is reopened exactly by the late write of a worker that still has a step to go to |
| Campaign.RecoveredTakesWallDown | internal/service/dunning_campaign.go:252-291 | without overlap, and when whoever closes the execution goes on to clear the invoice, a recovered execution nobody works on has the payment wall down and the invoice back with the scheduler |
| Campaign.PaidStaysIff | internal/adapter/db/invoice_repository.go:371-402 | a paid invoice stays paid in every continuation if and only if no worker that read it unpaid is about to raise the payment wall or to clear its columns |
| Campaign.PaymentDuringStepIsOverwritten | internal/service/dunning_campaign.go:156-211 | a run from the start, in any campaign whose first step raises the wall, in which every statement succeeds and a payment is overwritten |
| Campaign.ExecutionStore.ProcessExecution | internal/service/dunning_campaign.go:141-232 | the worker's code takes the protocol's statements one after the other |
| Campaign.ExecutionStore.MarkExecutionRecovered | internal/service/dunning_campaign.go:252-270 | only an active execution is closed, at its index, and then the invoice's wall and managed-by columns are cleared |
| CampaignOutcomes.TriggerIs | internal/service/dunning_campaign.go:60-108 | step: a triggered execution waits for its first step at that step's delay |
| CampaignOutcomes.ReadIs | internal/service/dunning_campaign.go:141-174 | step: a paid invoice is not dunned, an execution without a step left is closed, and any other goes on to its step |
| CampaignOutcomes.DeliverIs | internal/service/dunning_campaign.go:182-213 | step: the step of the row that was read is sent; a wall step writes back the invoice as read, but for the pause |
| CampaignOutcomes.UpdateIs | internal/service/dunning_campaign.go:215-232 | step: the next step is due at its delay from the start, or at once when that has passed |
| CampaignOutcomes.RecoveryIs | internal/service/dunning_campaign.go:252-291 | when every call succeeds, closing an active execution leaves it recovered at its index and the invoice with its wall down and back with the scheduler; an ended one is left alone |
| CampaignOutcomes.PauseKeepsOut | internal/adapter/db/dunning_campaign_repository.go:261-341 | while the invoice is paused no run claims its execution |
| CampaignOutcomes.OnlyPauseWritesPause | internal/adapter/db/invoice_repository.go:371-402 | no step but the operator's writes the pause |
| CampaignOutcomes.UnpauseRestores | internal/adapter/db/dunning_campaign_repository.go:261-341 | step: a pause that is taken back leaves nothing behind |
| CampaignOutcomes.PaymentIs | internal/service/dunning_campaign.go:170-174 | step: a payment marks the invoice paid and touches nothing else |
| CampaignOutcomes.CrashIs | internal/service/dunning_campaign.go:112-115 | step: a crash ends the work and writes nothing |
| CampaignOutcomes.DoneIsOver | internal/service/dunning_campaign.go:112-139 | step: a worker that is done does nothing more |
| Dunning.OneInstancePerLease | internal/scheduler/dunning.go:165-207 | two instances are in the middle of one invoice only if the later one claimed it after the earlier one's lease, while retries outlast the open leases |
| Dunning.LeasesHoldIff | internal/scheduler/dunning.go:165-207 | no open pass can be overtaken before its lease ends, throughout a run, if and only if every retry that is written outlasts the other open leases |
| Dunning.PromptInstancesKeepLeases | internal/scheduler/dunning.go:25-31 | it is enough that every retry is written while at least a lease is left until it: with the configured intervals, within two days less a quarter of an hour of its choice |
| Dunning.StalledInstanceVoidsLease | internal/scheduler/dunning.go:260-312 | corollary: an instance that takes the whole interval to write its retry lets two others hold the invoice from the same moment on, whatever the intervals |
| Dunning.RetriesBounded | internal/scheduler/dunning.go:228-304 | the retry count never passes the maximum and a mandate invoice stays with the scheduler |
| Dunning.WrittenOffInTime | internal/scheduler/dunning.go:228-258 | the remaining retries measure termination: at most that many passes before write-off or payment |
| Dunning.PaidStaysIff | internal/adapter/db/invoice_repository.go:1282-1294 | a paid invoice stays paid in every continuation if and only if no pass over it is open |
| Dunning.PaymentDuringPassIsOverwritten | internal/adapter/db/invoice_repository.go:1282-1294 | corollary: a payment that arrives between the claim and the end of a pass is overwritten with past due |
| Dunning.NextRetryDays | internal/scheduler/dunning.go:306-312 | the interval is the one at the retry count, and the last one from there on |
| Dunning.InvoiceStore.ClaimOverdue | internal/adapter/db/invoice_repository.go:816-855 | leases at most the limit of claimable invoices that no operator paused, longest due first, and nothing else, and leaves none when it takes fewer |
| Dunning.InvoiceStore.ProcessDunning | internal/scheduler/dunning.go:148-207 | a tick works each due invoice at most once and leaves none due below its bound |
| DunningOutcomes.TickIsOnePass | internal/scheduler/dunning.go:181-203 | what a tick makes of an invoice is what one pass of the protocol with succeeding writes makes of it |
| DunningOutcomes.ClaimIff | internal/adapter/db/invoice_repository.go:816-855 | step: which invoices a claim takes, column by column, and that it only leases them |
| DunningOutcomes.DecideIs | internal/scheduler/dunning.go:213-244 | step: a settling payment ends the pass; otherwise it gives up exactly when the invoice is overdue by the configured days or out of retries |
| DunningOutcomes.GiveUpIs | internal/adapter/db/invoice_repository.go:1512-1523 | step: giving up marks the invoice uncollectible and clears its next retry |
| DunningOutcomes.RescheduleIs | internal/scheduler/dunning.go:260-312 | step: one retry more, the next by its interval from when it was chosen, and the invoice handed to the worker unless it is a mandate's |
| DunningOutcomes.CrashedPassComesBack | internal/scheduler/dunning.go:196-203 | the invoice of a crashed pass is claimable again exactly when the lease has run out |
| DunningOutcomes.PauseKeepsOut | internal/adapter/db/invoice_repository.go:816-855 | while the invoice is paused no run claims it |
| DunningOutcomes.UnpauseRestores | internal/adapter/db/invoice_repository.go:816-855 | step: a pause that is taken back leaves nothing behind |
| DunningOutcomes.CrashIs | internal/scheduler/dunning.go:203-207 | step: a crash ends the pass and writes nothing |
| DunningOutcomes.DoneIsOver | internal/scheduler/dunning.go:209-312 | step: a pass that is over does nothing more |
| AccountingSync.OneLiveObject | internal/service/accounting.go:154-183 | an entity has at most one live object plus one per failed mapping read or write and per lost answer to a create, also after re-creation |
| AccountingSync.LostAnswerDuplicates | internal/service/accounting.go:162-183 | the bound is met: a create whose answer is lost is made again by the next sweep |
| AccountingSync.FailedMappingDuplicates | internal/service/accounting.go:162-204 | so does a mapping that cannot be written after a create, or not be read before a sync |
| AccountingSync.OneLiveIff | internal/service/accounting.go:154-204 | throughout a run an entity has at most one live object if and only if every create carried out for it finds none |
| AccountingSync.IncrementalIsForced | internal/service/accounting.go:436-534 | from a state in step, an incremental sweep leaves the provider exactly as a forced one |
| AccountingSync.IncrementalIsForcedAfter | internal/service/accounting.go:566-587 | so after every run, failing calls included, without deletions at the provider and overtaken pushes |
| AccountingSync.FailingSweepKeepsStep | internal/service/accounting.go:474-507 | a sweep in which calls fail keeps every entity in step |
| AccountingSync.NextSweepRepairs | internal/service/accounting.go:474-507 | whatever failed in a sweep, the one after it leaves every entity it lists current |
| AccountingSync.SweepIsCurrent | internal/service/accounting.go:436-534 | either sweep leaves every listed entity current at the provider |
| AccountingSync.PushKeepsInStepIff | internal/service/accounting.go:566-587 | a push keeps the mapping truthful if and only if the listed version is still current |
| AccountingSync.LostEdit | internal/service/accounting.go:566-587 | an edit between listing and pushing is skipped by incremental sweeps and repaired by a forced one |
| AccountingSync.InvoicePushCreatesOnce | internal/service/accounting.go:218-282 | pushing an invoice leaves each entity at most one object, and its customer and product as they were |
| AccountingSync.AccountingStore.EnsureEntityRef | internal/service/accounting.go:185-204 | the stored reference when there is one, else a newly created object |
| AccountingSync.EditIsNewer | internal/service/accounting.go:566-587 | step: an edit is later than anything before it and touches its own row only |
| AccountingSync.AccountingStore.SyncInvoice | internal/service/accounting.go:215-257 | it succeeds if and only if the customer has a reference and the invoice's own last call is answered, whatever becomes of the product |
| AccountingSync.InvoiceArrives | internal/service/accounting.go:215-257 | when every call succeeds the invoice ends mapped to a live object that holds the pushed version, and has exactly that one |
| AccountingSync.NoReferenceNoPush | internal/service/accounting.go:218-246 | without a customer reference neither the invoice's mapping nor its objects change |
| AccountingSync.SuccessPushes | internal/service/accounting.go:162-183 | a push that succeeds leaves the pushed version live at the provider |
| AccountingSync.GoneIsRecreated | internal/service/accounting.go:162-183 | step: when the mapped object is gone, what is created and mapped, and when the stale mapping stays |
| AccountingSync.DeletedIsRecreated | internal/service/accounting.go:162-183 | an object deleted at the provider comes back under another id with the next forced sync |
| AccountingSync.AccountingStore.SyncEntity | internal/service/accounting.go:162-183 | the create-or-update machine, with calls that are not carried out or not answered; it succeeds exactly when the last call it makes is answered, and its result is then live at the provider with the pushed version |
| AccountingSync.AccountingStore.SyncPages | internal/service/accounting.go:474-507 | the paged loop is the sweep over the pages that could be listed, failing entities passed over, each counted once; when every call succeeds and all is listed it is the sweep of IncrementalIsForced |
| Mrr.MonthlyExact | internal/service/analytics.go:19-42 | a price for whole months or years comes back exactly per month |
| Mrr.MonthlyNearest | internal/service/analytics.go:14-42 | for every interval, weeks and days included: over the period the monthly price stays within half a minor unit a month of what is charged |
| Mrr.ConvertNearest | internal/core/domain/currency.go:56-69 | a converted amount is within half a minor unit of the amount at the rate, each currency in its own minor units |
| Rounding.RoundHalfAwayIff | internal/core/domain/currency.go:56-69 | rounding gives the nearest integer, away from zero at a tie, and no other |
| Mrr.MinorUnitsConvert | internal/core/domain/currency.go:10-50 | so n yen and n dinars convert into dollars as n times their rate |
| Mrr.ByCurrencyIs | internal/service/analytics.go:192-229 | the amount of a currency is the sum, over the subscriptions of the scope, of the monthly price of the plan's first price in it |
| Mrr.ConvertAtPar | internal/service/fx.go:51-55 | corollary: the reporting currency converts at par |
| Mrr.FxNormalizer.LookUp | internal/service/fx.go:51-79 | the reporting currency at par, else the live rate, else the fallback rate; the report is flagged exactly when a fallback rate was used |
| Mrr.FxNormalizer.ConvertAmount | internal/service/fx.go:81-100 | an amount converts exactly when a rate is found, and to the same figure as in the report |
| Mrr.GetMrr | internal/service/analytics.go:181-264 | the scoped figure, for one entity or all |
| Mrr.GetMrrByEntity | internal/service/analytics.go:292-396 | each row is its scoped figure, and the total the consolidated one when every subscription is attributable |
| Mrr.AmountsAddUp | internal/service/analytics.go:375-389 | in each currency the entities' amounts add up to the tenant's |
| Mrr.ConvertedPick | internal/service/analytics.go:230-247 | the order in which a currency map is walked does not matter |
| Mrr.RoundingDriftNonNegative | internal/core/domain/currency.go:56-69 | n amounts rounded one by one are within half of n of their rounded sum |
| Mrr.RoundingDrift | internal/core/domain/currency.go:56-69 | with amounts of either sign, within half of n rounded up |
| Mrr.DriftReached | internal/service/analytics.go:369-374 | the bound is reached for every n |
| Mrr.RowsDriftFromTotal | internal/service/analytics.go:369-374 | the rows drift from the total by at most half as many units per foreign currency as there are entities |
| Mrr.ReceivablesByEntity | internal/service/analytics.go:430-477 | each entity's row is the sum of the open receivables that are its own, or the primary's without an entity, in the reporting currency; and the total of the rows |
| Mrr.ReceivablesConserved | internal/service/analytics.go:430-477 | with every receivable attributable to a listed entity the total counts each once |
| Entitlements.ResolveIsJoin | internal/service/entitlement.go:15-28 | resolving two row lists together is joining their separate results |
| Entitlements.ResolveIsLeast | internal/service/entitlement.go:15-28 | the result is the least value above every row of the feature |
| Entitlements.ResolveMonotone | internal/service/entitlement.go:20-25 | more rows never lower a feature |
| Entitlements.EffectiveIgnoresOrder | internal/service/entitlement.go:226-282 | shuffling or repeating rows gives the very same list |
| Entitlements.ResolveEffective | internal/service/entitlement.go:226-282 | one entry per feature, ascending, with the joined value and every plan that mentions it |
| Entitlements.CustomerPlans | internal/service/entitlement.go:141-152 | each plan of an active or trialing subscription once, and no other |
| Entitlements.SubscribingNeverLowers | internal/service/entitlement.go:15-28 | another subscription can only add capability |
| Entitlements.CheckAgreesWithResolution | internal/adapter/db/entitlement_repository.go:90-126 | on a valid catalog the one-query check answers what the full resolution would |
| CreditStatement.GetCreditStatement | internal/service/credit_note.go:709-793 | what was issued, what is held and what was applied, in the notes' and applications' columns, by currency and entity; one summary line per currency issued or applied |
| CreditStatement.BalanceIsAvailable | internal/service/credit_note.go:719-723 | a balance line is exactly what the applier would draw from |
| CreditStatement.EntityBalancesAddUp | internal/service/credit_note.go:725-751 | the entities' balances of a currency add up to its summary balance |
| CreditStatement.SummaryAddsUp | internal/service/credit_note.go:768-785 | the summary counts every spendable note once |
| Grouping.GroupsConserve | internal/service/credit_note.go:725-751 | over any listing of the keys, the groups add up to everything |
| Gstr3b.BuildGstr3b | internal/service/gstr3b.go:38-87 | the totals are invoice sums less credit-note sums; a row for each place of an unregistered buyer's inter-state document and no other, with that place's sums, ascending |
| Gstr3b.Table32Conserves | internal/service/gstr3b.go:31-87 | Table 3.2 adds up to the unregistered inter-state tax net of credit notes |
| Gstr3b.SplitsAddUp | internal/service/gstr3b.go:38-87 | cutting the period in two and adding gives the whole, cell by cell |
| Gstr3b.OrderDoesNotMatter | internal/service/gstr3b.go:38-87 | no cell depends on the order of documents |
| Gstr3b.Table32IgnoresOrder | internal/service/gstr3b.go:79-84 | nor do the rows or their order |
| Ordering.BeforeIff | internal/service/gstr3b.go:79-84 | byte order: at the first difference the smaller byte comes first, and a proper prefix before the longer string |
| ImportFile.Validate | cmd/import/importfile.go:68-153 | names exactly the items with a problem, so it is empty exactly for a valid file |
| Importer.RerunChangesNothing | cmd/import/main.go:222-443 | after a run without failures a second one creates, changes and fails nothing |
| ImportResults.RunStores | cmd/import/main.go:222-443 | after a real run of a valid file in which nothing failed, over any tables: every listed plan, customer and subscription is stored, new ones with the listed columns, known ones updated in the columns an update touches or else as they were, and nothing else is added or changed |
| ImportResults.FirstImportFills | cmd/import/main.go:222-443 | a first import leaves one row for each item |
| ImportCounters.EachItemCountsOnce | cmd/import/main.go:222-443 | over every run, dry or real and whatever fails: each item is counted once, the tables grow by what is counted as created, and a dry run writes nothing |
| ImportCounters.SubscriptionIsOneItem | cmd/import/main.go:365-443 | step: when a subscription fails |
| Importer.RunFailsNothingIff | cmd/import/main.go:365-443 | when a run, dry or real, of a valid file fails nothing |
| Importer.DryRunMisreportsFirstImport | cmd/import/main.go:284-443 | a dry run of a first import reports failures the real run does not have |
| ImportCounters.DryRunForesees | cmd/import/main.go:222-443 | a dry run of a valid file foresees the updates and the skips, and each failure it reports too much is a creation it reports too little |
| Importer.CancelSyncIsExact | cmd/import/main.go:445-494 | corollary: in the rows' columns, schedules exactly those of import origin that are neither canceled nor listed, at the end of their period, never a dashboard-created one |
| Importer.CancelSyncIsIdempotent | cmd/import/store.go:191-211 | corollary: a second cancel-sync changes nothing but updated_at |
| Importer.ReappearingStaysScheduled | cmd/import/store.go:153-168 | corollary: listing a scheduled subscription again does not undo the cancellation |
| Importer.ImportRun.ImportPlanList | cmd/import/main.go:222-282 | the loop with its early exits is the fold over plans |
| Importer.ImportRun.ImportCustomerList | cmd/import/main.go:284-363 | the loop with its early exits is the fold over customers |
| Importer.ImportRun.ImportSubscriptionList | cmd/import/main.go:365-443 | the loop with its early exits is the fold over subscriptions |
| Importer.ImportRun.CancelMissing | cmd/import/main.go:455-494 | the loop schedules the missing rows, counts them as canceled or failed, alike in a dry run, and counts one failure when the rows cannot be listed |

## Left out

- HTTP routes, SQL text, gateways, provider adapters, e-mail, SMS and reports: taken as contracts or outcomes.
- Invoice voiding, immediate cancellation with breakage, downgrade credits, schedule debt, wallets, TDS withholding and payment reversal: no part in the modelled postings.
- Per-entity ledgers and the TigerBeetle copy: one ledger stands for the books.
- DeferredBooksInvariant.StepInv: a status change and the posts that go with it at once (of an issue, a payment, a recognition, the cash and tax of a refund) are one step, each post with its own outcome; a recognition whose post succeeds while its status update fails is not modelled: the requeue repairs it, unless a refund or write-off of the requeued event comes first.
- DeferredBooksInvariant.EveryInvoiceExplained: no refund comes between the payment of an invoice and the scheduling that follows it, where it could cancel a schedule that the call then creates anew.
- DeferredBooksInvariant.EveryAccountExplained: recovery of a written-off invoice is modelled in WriteOffRecovery, not as a step of this machine, because it runs on legs rather than schedules.
- WriteOffRecovery.CyclesRestore: the cancellation of pending events on the first write-off is modelled in DeferredBooks; `SameWriteOff` ties the two ledgers together.
- TaxBooks.TaxHoldsIff: a refund of the books reads the prior refunds in the same step as it posts; racing reads are modelled in RefundProtocol and TaxTiling.
- RefundProtocol.OneRefundPerNote: the creator-may-not-approve rule is left out, because allowing every approval only adds runs.
- CustomerCredit.CreditNoteStore.ClaimExpiredCredits: rows skipped because another sweep locks them are not modelled.
- Campaign.PassesInOrder: the first invoice update when a campaign is triggered is taken to succeed.
- Campaign.SentOnceWheneverInTurn: the reads of campaign, invoice and customer at the start of a pass are one step, with the write that closes an execution whose campaign has no step left.
- Dunning.WrittenOffInTime: the retry worker that takes over invoices without a mandate is not part of this model.
- AccountingSync.OneLiveObject: two syncs of one entity that overlap are left out; bulk sweeps are single-flight per tenant, but a sync per event is not.
- AccountingSync.IncrementalIsForced: covers the customer and invoice lists; an unchanged invoice's never-synced product is created by a forced sweep only.
- AccountingSync.AccountingStore.SyncPages: a sweep that is cut short by its time budget is not modelled; the dirty check and the push of one entity read the mapping with one outcome.
- AccountingSync.AccountingStore.SyncEntity: a provider that returns no id is not modelled.
- Mrr.GetMrrByEntity: the rows are listed in roster order; the source then sorts them by amount.
- Mrr.FxNormalizer.LookUp: a rate does not change within one report.
- Entitlements.ResolveEffective: the plan ids of an entry are a set; the source lists them in text order.
- Importer.RunFailsNothingIff: the store is one tenant's, and a plan update is one write although the source makes two.
- ImportResults.RunStores: name, country and tax id stand for all columns of a customer.
- CSV and JSON parsing, and timestamps inside the import file: a bound is a number or absent.
- Churn scoring, Smart Retry and metered billing: floating point, or libraries that are not part of this model.
