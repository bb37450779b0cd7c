# Escrow core of a villa-booking platform, in Dafny

The platform takes a guest's money when a booking is confirmed, holds it in escrow
through the stay, and pays it to the host, back to the guest, or some of each. Several
small machines have to agree while it does so: the escrow ledger, the booking and
dispute states, refunds and payouts, the payment webhook and the gateway, the cron
sweeps, and the report queue. This project models them and proves that they agree in
every run. `dafny verify dfyconfig.toml` checks all of it.

## How the model is laid out

- `Money`, `Refund`, `Codes`, `Escrow`: the pure arithmetic and the pure escrow machine.
- `Bookings`: one booking's *case* (its row, ledger entries, refund, dispute and payout)
  and every transition on it. `CaseInvariants`, `CaseLaws`, `Lifecycle`, `CaseOutcomes`,
  `CaseHistories`, `CaseTermination` prove what holds of every run of one case, and
  `CaseExamples` brings new bookings to the states in which a promise fails.
  `CaseWrites`, `CaseRefusals` and `DisputeRows` say row by row what a transition leaves
  and which refusal it gives, in the source's own numbers.
- `Database`, `Operations`: all tables at once, and what each operation does to them.
  `Effects` and `Runs` show that a run of the whole application is, for each booking, a
  run of its own case; `RunLaws`, `RunTermination`, `GlobalLedger`,
  `PayoutSafety`, `PayoutHolds`, `BookingCodes` and `HostStrikes` draw the conclusions,
  `OperationRows` says what each operation leaves and refuses, and `StaleReads` says
  what becomes of the operations that read first and write later.
- `Persistence` (class `Store`), `Transitions`, `AdminDesk`, `Sweeps`, `ChargeEvents`:
  the operations as imperative methods over mutable tables, each proved to do exactly
  what `Operations` says and to roll back completely when it is refused. `PartialTicks`
  is about ticks cut short.
- `Webhook`, `WebhookSafety`, `WebhookRuns`, `LateDeliveries`: the payment protocol with
  handlers cut at every gap between a transaction and a gateway call. `RefundableCharges`
  and `LostClaims`: which charges can still be sent back, and one that never is.
- `Paying`, `PayingViews`, `PayingRuns`, `PayingExamples`: marking a booking paid, cut at
  each of its reads and at the gateway call before its transaction.
- `RefundSending`: the sending of a booking's refund, cut in the same way, with the
  gateway's own record of what it has sent. `RefundCounting`, `RefundViews`, `RefundRuns`,
  `RefundSafety` and `RefundCancellations` say when it goes out once and as owed,
  `RefundExamples` runs it to where it does not, `RefundAlone` ties it to the one-step
  operations, and `JointRefunds` runs it together with the webhook protocol.
- `DueList`, `DueListLaws`: the payout due list. `Seasons`, `Pricing`: quotes.
  `Retry`, `RetryLimits`, `Notifications`: the notification retry protocol.

A refused operation is a `Failure` and changes nothing. Money is mathematical integers;
the safe-integer guard and the 32-bit column bound are explicit where the program meets
them. Identifiers are natural numbers. Times are milliseconds, nights are day numbers
with the weekday taken modulo 7 (section 21.4.1 of ECMA-262).

## Where the code is looser than its comments

The model follows the code. Each point has a lemma that states exactly what holds.

- Resolving an appeal asks for a dispute and FROZEN money, not for an appeal
  (`src/lib/booking/transitions.ts:482-484`). After a report freeze this changes a
  refund that has already been sent: `CaseHistories.SentRefundMayChangeIff`, from a new
  booking in `CaseExamples.SentAndReopenable`.
- Sending a refund is said to be idempotent and to move the cumulative amount once
  (`src/lib/payments/charge.ts:192-199`, `src/lib/admin/dispute-review.ts:160-167`).
  Between the null check and the store nothing holds the row, so two finalizations can
  both send, a crash after the gateway call makes the next one send again, and an appeal
  accepted before the store grows a refund already sent: `RefundExamples.RefundsGoWrong`;
  exactly when: `RefundRuns.MayGoWrongIff`. For a cancelled booking without a dispute the
  promise holds in every run: `RefundCancellations.CancelledIsRefundedOnce`.
- A report freeze is described as reversible (`PRODUCT_FLOWS.md:114`), but nothing lifts
  it on a stay without a dispute: `CaseLaws.FrozenMoneyEscapesIff`, from a new booking in
  `CaseExamples.ReportTrapsAStay`.
- The lifecycle table lets a host cancel at any stage before completion
  (`PRODUCT_FLOWS.md:73`); the program accepts it from CONFIRMED only:
  `CaseLaws.CancelByHostAcceptedIff`. The diagram calls COMPLETED final; exactly
  when it is not: `CaseHistories.CompletedIsFinalIff`.
- On a report-frozen stay the guest cannot open a dispute any more:
  `CaseLaws.OpenDisputeAcceptedIff`.
- The holds are said to be checked before any write of a payout
  (`src/lib/admin/payout.ts:91-95`), and they are, but the transaction does not look at
  them again: a hold placed while the gateway is asked for its balance comes too late,
  `PayingExamples.HeldAndPaid`; exactly when: `PayingRuns.CoveredMayBePaidIff`.
- Every transition is said to re-check the state, so that a stale caller cannot drive an
  illegal move (`src/lib/booking/transitions.ts:7`). Four of them read first and write
  without a guard: `StaleReads.LateWriteKeepsIff`, `StaleReads.ExpiredWithHeldMoney`.
- Taking a report into review reads the report and the escrow state before its
  transaction, so that overlapping acceptances can be refused or freeze twice
  (`src/lib/admin/report-review.ts:57-66`): `StaleReads.LateFreezeOutcome`,
  `StaleReads.OneReportFreezesTwice`.
- A payout records total less commission even after a partial refund
  (`src/lib/admin/payout.ts:130`): `CaseLaws.PayoutAgainstLedger`, from a new booking in
  `CaseExamples.OverpayingPayout`.
- A second event id for the confirming charge, delivered before the payment is marked,
  refunds the recorded charge (`src/lib/payments/charge.ts:102-115`):
  `LateDeliveries.SecondEventRefundsTheRecordedCharge`. With one event id per charge
  this cannot happen: `WebhookRuns.RecordedIsNeverRefunded`. Without, exactly when it
  still can: `RefundableCharges.MayBeRefundedIff`.
- No charge is said to be left marked REFUNDED that was not refunded
  (`src/lib/payments/charge.ts:150-157`). A handler that dies between its claim and the
  gateway call leaves one: `LostClaims.MarkedAndNeverRefunded`.
- The concierge opens an instant charge without a payment row
  (`src/lib/concierge/booking.ts:221`). Such a charge, if stranded, is never refunded:
  `WebhookRuns.RefundedExactlyOnce`.
- The overlap search does not report a season that starts after it ends, although its
  comment says so: `Seasons.ReversedSeasonIsNotReported`.
- Overlapping retry ticks are said never to double-dispatch and a notification never to
  be lost (`src/lib/notifications/retry.ts:7-10`). No attempt is made twice
  (`Retry.SendsAreBounded`), but successive attempts can run at once
  (`RetryLimits.MayOverlapIff`), and a row left QUEUED by a crash, or FAILED at its last
  attempt, is not sent again (`RetryLimits.MayBeSentIff`).

## Model

| member | source | states |
|---|---|---|
| `Money.SumOfConcat` | `src/lib/money.ts:26-28` | summing satang over two lists is adding their sums |
| `Codes.CodeTextIsInjective` | `src/lib/ledger/code.ts:17-26` | two different month-and-number pairs never print as the same code, also past 9999 where the padding stops |
| `Codes.ValueOfPadded` | `src/lib/ledger/code.ts:24-26` | zero-padding never changes the number a code reads back as, and only lengthens a short one |
| `Codes.CodeLayout` | `src/lib/ledger/code.ts:17-26` | a code reads UR-, two digits of the year, two of the month, a dash, and the number in four digits or more |
| `Refund.GuestRefundPct` | `src/lib/booking/refund.ts:24-35` | every tier and lead time gives a percentage between 0 and 100; the table itself is `CaseOutcomes.CancellationByLeadTime` |
| `Refund.TierTableIsMonotone` | `src/lib/booking/refund.ts:24-35` | cancelling earlier never refunds less and a stricter tier never refunds more |
| `Refund.RefundForPct` | `src/lib/booking/refund.ts:38-43` | for 0 to 100 percent, the least whole amount covering the percentage, never more than the total |
| `Refund.RefundOffTheScale` | `src/lib/booking/refund.ts:38-43` | a percentage of 100 or more refunds the whole total, one of 0 or less nothing |
| `Refund.Breakdown` | `src/lib/booking/refund.ts:46-56` | refund, host share and platform share add up to the total, and the host share is 90 percent of what is kept, rounded down |
| `Refund.ChainRounding` | `src/lib/booking/refund.ts:38-43` | over a chain of k partial decisions the cumulative refund never falls, stays within the total, is never below the exact rational share and exceeds it by less than k satang |
| `Escrow.ReduceOutcome` | `src/lib/ledger/escrow.ts:91-156` | what each accepted event leaves: the amount changes by exactly what came in, went back or was paid, HELD only from a charge, PAID only from a payout |
| `Escrow.ReduceAgrees` | `src/lib/ledger/escrow.ts:91-156` | appending an accepted event's rows keeps the ledger in step with the position: at most one in-escrow bucket is non-zero and it is the one the state names |
| `Escrow.AcceptedIff` | `src/lib/ledger/escrow.ts:91-156` | exactly when each event is accepted on a position the ledger describes |
| `Escrow.ReduceRefusals` | `src/lib/ledger/escrow.ts:91-156` | which error each refused event gives |
| `Escrow.SpentIsFinal` | `src/lib/ledger/escrow.ts:91-156` | PAID and REVERSED accept no further event |
| `Escrow.FoldIgnoresOrder` | `src/lib/ledger/escrow.ts:198-219` | the running totals do not depend on the order the rows are read in |
| `Escrow.LogRebuildsPosition` | `src/lib/ledger/apply.ts:59-83` | after any accepted sequence of events, in any row order, the position folded from the log is the one the machine returned and the escrow invariant holds |
| `CaseInvariants.CaseRunKeeps` | `src/lib/booking/transitions.ts:97-551` | after every run of transitions on one booking, status, escrow, dispute, refund, payout and ledger agree (the coupled invariant `CaseOk`), a dispute refunded in full exactly with a booking cancelled on the host |
| `CaseInvariants.ConfirmKeeps` | `src/lib/booking/transitions.ts:185-209` | a confirmation moves the whole total from NONE to HELD and keeps the invariant |
| `CaseInvariants.CompleteKeeps` | `src/lib/booking/transitions.ts:227-240` | completing a stay releases HELD money, leaves FROZEN money frozen, and keeps the invariant |
| `CaseInvariants.CancelByGuestKeeps` | `src/lib/booking/transitions.ts:249-278` | a guest cancellation at any allowed stage keeps the invariant |
| `CaseInvariants.CancelByHostKeeps` | `src/lib/booking/transitions.ts:284-297` | a host cancellation keeps the invariant |
| `CaseInvariants.OpenDisputeKeeps` | `src/lib/booking/transitions.ts:305-320` | an opened dispute leaves DISPUTED with the full total FROZEN and an OPEN dispute |
| `CaseInvariants.ResolveDisputeKeeps` | `src/lib/booking/transitions.ts:331-399` | each way of resolving a dispute keeps the invariant, the refund row included |
| `CaseInvariants.AppealDisputeKeeps` | `src/lib/booking/transitions.ts:419-460` | an appeal re-freezes what is left and keeps the invariant |
| `CaseInvariants.ResolveAppealKeeps` | `src/lib/booking/transitions.ts:471-551` | re-deciding the frozen pot keeps the refund row cumulative and equal to the ledger's refunded total |
| `CaseInvariants.ReportFreezeKeeps` | `src/lib/admin/report-review.ts:62-68` | a report freeze at any stage keeps the invariant |
| `CaseInvariants.PayOutKeeps` | `src/lib/admin/payout.ts:130-142` | a payout keeps the invariant: a payout row exists exactly when escrow is PAID |
| `CaseInvariants.ApplyEventMoves` | `src/lib/ledger/apply.ts:86-109` | an accepted event only appends ledger rows and refreshes the cached state, and moves the totals by what the event says |
| `CaseLaws.ConfirmAcceptedIff` | `src/lib/booking/transitions.ts:185-209` | a fresh confirmation is accepted exactly for an AWAITING_PAYMENT booking with a positive total |
| `CaseLaws.CompleteAcceptedIff` | `src/lib/booking/transitions.ts:227-240` | completion is accepted exactly from CHECKED_IN; its release is never refused |
| `CaseLaws.CancelByGuestAcceptedIff` | `src/lib/booking/transitions.ts:249-278` | accepted exactly for the booking's guest before payment or from CONFIRMED; its settlement is never refused |
| `CaseLaws.CancelByHostAcceptedIff` | `src/lib/booking/transitions.ts:284-297` | accepted exactly for the listing's host from CONFIRMED |
| `CaseLaws.OpenDisputeAcceptedIff` | `src/lib/booking/transitions.ts:305-320` | accepted exactly for the guest of a CHECKED_IN booking whose money is HELD; on a report-frozen stay it is refused with an illegal transition |
| `CaseLaws.ResolveDisputeAcceptedIff` | `src/lib/booking/transitions.ts:331-399` | accepted exactly from DISPUTED |
| `CaseLaws.AppealAcceptedIff` | `src/lib/booking/transitions.ts:419-460` | accepted exactly for a resolved dispute's own side that has not appealed yet, while the remainder is RELEASABLE and the refund unsent; what it uses up is `DisputeRows.AppealWrites` |
| `CaseLaws.ResolveAppealAcceptedIff` | `src/lib/booking/transitions.ts:471-484` | accepted exactly with a dispute and FROZEN money; an armed appeal is not asked for |
| `CaseLaws.ReportFreezeNeverRefused` | `src/lib/admin/report-review.ts:57-84` | with the report and the escrow state read in the same step, taking a booking report into review is never refused by the ledger; a late freeze is `StaleReads.LateFreezeOutcome` |
| `CaseLaws.PayOutAcceptedIff` | `src/lib/ledger/escrow.ts:123-129` | a payout is accepted exactly from RELEASABLE |
| `CaseLaws.MoneyIsConserved` | `src/lib/booking/transitions.ts:249-551` | received = total = refunded + in escrow + paid out; the refund row is the refunded total and its retained shares are the rest |
| `CaseLaws.PayoutAgainstLedger` | `src/lib/admin/payout.ts:130-142` | host amount plus commission equals the PAID move exactly when nothing was refunded; host amount is within the PAID move exactly when the refund is within the commission |
| `CaseLaws.FrozenMoneyEscapesIff` | `src/lib/booking/transitions.ts:471-484` | frozen money can still leave escrow exactly when the booking is CONFIRMED or has a dispute; a report freeze on any later stage without a dispute is permanent |
| `Lifecycle.FollowsTheDiagram` | `PRODUCT_FLOWS.md:38-57` | every accepted action moves a booking along an arrow of the lifecycle diagram, except that re-deciding a dispute whose remainder is RELEASABLE or FROZEN can move a COMPLETED booking to CANCELLED_BY_HOST |
| `Lifecycle.ArrowCanBeTakenIff` | `PRODUCT_FLOWS.md:38-57` | for either answer of the exclusion constraint, every arrow can be taken from every reachable booking at its tail, except the charge of a zero total, the dispute of a report-frozen stay and the acceptance of a request whose dates are taken |
| `Lifecycle.FollowsTheMoneyFlow` | `PRODUCT_FLOWS.md:75-77` | the escrow state moves along the arrows of the money flow only |
| `Lifecycle.OnlyThePartiesAct` | `src/lib/booking/transitions.ts:127-460` | hosts act only on bookings of their own listings, guests only on their own, each side only on its own appeal |
| `CaseOutcomes.GuestCancellation` | `src/lib/booking/transitions.ts:249-278` | the guest gets the tier's percentage rounded up, the rest stays owed to the host, REVERSED exactly if nothing is left; which percentage is `CaseOutcomes.CancellationByLeadTime` |
| `CaseOutcomes.CancellationByLeadTime` | `src/lib/booking/refund.ts:24-35` | in milliseconds of lead time, also after the stay has begun: flexible 100 percent from three days, else 50; moderate 100 from seven, 50 from three, else 0; strict 100 from fourteen, 50 from seven, else 0 |
| `CaseOutcomes.GuestCancellationAtTheEdges` | `src/lib/booking/refund.ts:24-35` | a fortnight ahead everything is refunded under every tier; within a week the strict tier refunds nothing |
| `CaseOutcomes.HostCancellation` | `src/lib/booking/transitions.ts:284-297` | the guest gets the whole total and escrow ends REVERSED with nothing left |
| `CaseOutcomes.Decision` | `src/lib/booking/transitions.ts:331-551` | a dispute or appeal decision refunds the rounded-up percentage of the pot that was left, keeps the rest owed to the host, and sets the decided status |
| `CaseOutcomes.RequestDeadline` | `src/lib/booking/transitions.ts:97-106` | an unanswered request expires with the first tick more than twelve hours later |
| `CaseOutcomes.InstantDeadline` | `src/lib/booking/transitions.ts:113-122` | an unpaid instant hold expires with the first tick more than one hour later |
| `CaseOutcomes.AcceptedDeadline` | `src/lib/booking/transitions.ts:127-133` | an accepted, unpaid request expires with the first tick more than twelve hours after the answer |
| `CaseOutcomes.StayByTheClock` | `src/lib/booking/sweeps.ts:111-134` | a stay is checked in and completed at the two fixed hours, in one tick if both are due, releasing the money unless it is frozen |
| `CaseOutcomes.ReminderByTheClock` | `src/lib/booking/sweeps.ts:76-105` | the payment reminder is stamped once, with the first tick in the last two hours before the deadline |
| `CaseOutcomes.ExpireAcceptedIff` | `src/lib/booking/transitions.ts:151-168` | the expiry transition is accepted exactly from the deadline on |
| `CaseHistories.SentRefundIsFixed` | `src/lib/booking/transitions.ts:443-456` | once the gateway's refund id is stored the refund row never changes again in a run whose report freezes change nothing |
| `CaseHistories.SendingSettles` | `src/lib/payments/charge.ts:201-220` | sent without interruption, by either caller, a refund is marked only on a case with no decision pending, and marking it changes no amount; `RefundSafety.SentOnceAsOwed` is the statement for senders that can be interrupted |
| `CaseHistories.SentRefundMayChangeIff` | `src/lib/booking/transitions.ts:482-484` | a sent refund can still change exactly when a dispute's remainder is RELEASABLE or FROZEN |
| `CaseHistories.ReopeningGrowsRefund` | `src/lib/admin/report-review.ts:62-68` | the concrete history: report freeze, then a full refund, grows a refund row whose smaller amount was already sent |
| `CaseHistories.CompletedIsFinalIff` | `PRODUCT_FLOWS.md:38-57` | a COMPLETED booking can still leave COMPLETED, in some run, exactly when it carries a dispute whose remainder is RELEASABLE or FROZEN |
| `CaseHistories.SpentNeverMoves` | `src/lib/ledger/escrow.ts:91-156` | no action of the application moves money of a PAID or REVERSED booking |
| `CaseHistories.HistoryFollowsChain` | `src/lib/booking/transitions.ts:372-384` | in every history the refund row of a disputed booking is what its chain of decisions adds up to |
| `CaseHistories.RoundingOverHistory` | `src/lib/booking/transitions.ts:516-531` | over every real history of k decisions the guest's refund is within the total and less than k satang above the exact share |
| `DisputeRows.DecisionWrites` | `src/lib/booking/transitions.ts:363-397` | a decision, also one on an appeal (lines 507-550), stores its own kind, its percentage exactly if it is partial, and leaves id and stamps alone |
| `DisputeRows.AppealWrites` | `src/lib/booking/transitions.ts:437-455` | an appeal sets its own side's stamp, which was empty, and leaves the other side's, the id, the status and the percentage alone |
| `DisputeRows.OthersLeaveDispute` | `src/lib/booking/transitions.ts:305-551` | nothing but opening, deciding and appealing touches the dispute row |
| `DisputeRows.DisputeTellsTheLastDecision` | `src/lib/booking/transitions.ts:331-551` | in every history the dispute's status is that of the last accepted decision and its percentage that of the last partial one |
| `DisputeRows.OneAppealForEachSide` | `src/lib/booking/transitions.ts:407-460` | in every history a side's stamp is the time of its one accepted appeal |
| `DisputeRows.BothSidesAppeal` | `src/lib/booking/transitions.ts:407-460` | a history from a new booking: the guest appeals, the decision is upheld, the host appeals, both accepted |
| `CaseWrites.AnswerWrites` | `src/lib/booking/transitions.ts:127-220` | acceptance, refusal, expiry and check-in write the status, an acceptance also the twelve hours to pay, and nothing else |
| `CaseWrites.ConfirmWrites` | `src/lib/booking/transitions.ts:185-209` | the code and one ledger row: the total from NONE to HELD, under the charge's event |
| `CaseWrites.CompleteWrites` | `src/lib/booking/transitions.ts:227-240` | a ledger row for the release of HELD money, none for frozen money |
| `CaseWrites.CancelByGuestWrites` | `src/lib/booking/transitions.ts:249-278` | the refund row and the settlement rows with their cause, or the status alone before payment |
| `CaseWrites.CancelByHostWrites` | `src/lib/booking/transitions.ts:284-297` | everything back under the host's cause, and the refund row for it |
| `CaseWrites.OpenDisputeWrites` | `src/lib/booking/transitions.ts:305-320` | one row freezing the total under the dispute's id |
| `CaseWrites.ResolveDisputeWrites` | `src/lib/booking/transitions.ts:331-399` | status, escrow, cumulative refund row and settlement rows under the administrator's name, per kind of decision |
| `CaseWrites.ResolveAppealWrites` | `src/lib/booking/transitions.ts:471-551` | the same for a decision on an appeal, out of the frozen pot, a stored gateway id kept |
| `CaseWrites.AppealWrites` | `src/lib/booking/transitions.ts:451-456` | one row freezing what is left under the dispute's id |
| `CaseWrites.ReportFreezeWrites` | `src/lib/admin/report-review.ts:62-68` | one row freezing HELD or RELEASABLE money under the report's id, otherwise nothing |
| `CaseWrites.PayOutWrites` | `src/lib/admin/payout.ts:130-142` | one row discharging what is left under the administrator's name, and total less commission, account and slip recorded |
| `CaseWrites.SenderWrites` | `src/lib/payments/charge.ts:201-220` | the gateway's id stored exactly for an owed, unsent refund of a paid booking that the gateway has answered |
| `CaseWrites.NewRowsWrite` | `src/lib/booking/transitions.ts:97-122` | the terms stored as given, twelve hours for the host's answer to a request, one hour to pay an instant hold |
| `CaseRefusals.HostAnswerRefusals` | `src/lib/booking/transitions.ts:127-144` | which refusal a host's answer gets, in order |
| `CaseRefusals.CancelRefusals` | `src/lib/booking/transitions.ts:249-297` | which refusal a cancellation gets |
| `CaseRefusals.OpenDisputeRefusals` | `src/lib/booking/transitions.ts:305-320` | which refusal an opened dispute gets, the illegal transition of a frozen stay among them |
| `CaseRefusals.AppealRefusals` | `src/lib/booking/transitions.ts:425-450` | which refusal an appeal gets, in the order its guards are asked |
| `CaseRefusals.ResolutionRefusals` | `src/lib/booking/transitions.ts:342-346` | which refusal a decision gets; on an appeal lines 482-484 |
| `CaseRefusals.FinalizeRefusals` | `src/lib/admin/dispute-review.ts:168-176` | which refusal finalizing a refund gets |
| `CaseTermination.StepLowersRank` | `src/lib/booking/transitions.ts:127-551` | every accepted step that changes status, escrow or ledger strictly lowers a rank of unspent appeals, status and escrow phase; no step but a report freeze raises it |
| `CaseTermination.ReportFreezeRank` | `src/lib/admin/report-review.ts:57-84` | a report freeze raises the rank by one at most |
| `StaleReads.LateWriteKeepsIff` | `src/lib/booking/transitions.ts:127-168` | what a status write without a guard does to whatever the booking has become: the books stay in agreement exactly when no money is charged, or, for a check-in, when all of it is held or frozen, undisputed and unrefunded |
| `StaleReads.LateWriteMayHarmIff` | `src/lib/booking/transitions.ts:214-220` | between a passed check and its write something can happen that makes the write do harm: always for a check-in, for the others exactly when the booking costs anything |
| `StaleReads.ExpiredWithHeldMoney` | `src/lib/booking/transitions.ts:151-168` | a history for every new hold: the sweep reads it past its deadline, the webhook confirms it, the sweep writes EXPIRED; the total is HELD and never leaves escrow again |
| `StaleReads.LateFreezeOutcome` | `src/lib/admin/report-review.ts:57-84` | the freeze behind a report, decided on an escrow state read earlier: when it is refused, when it leaves freezable money unfrozen, when it is the freeze of one step; the invariant is kept |
| `StaleReads.LateFreezeMayBeRefusedIff` | `src/lib/admin/report-review.ts:57-84` | the acceptance can come to be refused exactly when the money was freezable at the read |
| `StaleReads.OneReportFreezesTwice` | `src/lib/admin/report-review.ts:57-84` | a history in which two overlapping acceptances of one report freeze the money twice, with a guest cancellation in between, for good |
| `CaseExamples.ReportTrapsAStay` | `src/lib/admin/report-review.ts:62-68` | a history from a new booking with any positive total: paid, checked in, reported; the money is FROZEN after it in every continuation |
| `CaseExamples.GetsToAPartialRefund` | `src/lib/booking/transitions.ts:331-399` | a history from a new booking: paid, checked in, disputed and decided at fifty percent, half the total is owed to the guest and the rest RELEASABLE |
| `CaseExamples.SentAndReopenable` | `src/lib/booking/transitions.ts:482-484` | that history with its refund sent, then a report freeze and a full refund: the sent half becomes the whole total and the COMPLETED booking CANCELLED_BY_HOST |
| `CaseExamples.OverpayingPayout` | `src/lib/admin/payout.ts:130-142` | that history paid out, for a total of 1000 and a commission of 100: the payout row says 900, the PAID move 500 |
| `Database.PutGet` | `src/lib/ledger/apply.ts:86-109` | what is written for one booking is read back for it and seen by no other booking, whatever the other ledger rows are |
| `Database.CaseNextIsMine` | `src/lib/ledger/apply.ts:94-104` | a transition only appends ledger rows of its own booking |
| `Effects.NextShows` | `src/lib/booking/transitions.ts:97-551` | every accepted action of the application amounts to nothing, one new booking, or one transition of one booking |
| `Effects.NextBeside` | `src/lib/booking/strikes.ts:16-28` | what every accepted action does to events, counters, reports, strikes and suspensions |
| `Runs.RunKeeps` | `src/lib/booking/transitions.ts:97-551` | after every run of the whole application every booking satisfies the coupled invariant and no row refers to a missing booking |
| `Runs.RunProjects` | `src/lib/booking/transitions.ts:97-551` | interleaved with any other bookings, one booking goes through a run of its own case, so every law of a single case holds in every run |
| `Runs.RunProjectsFromCreation` | `src/lib/booking/transitions.ts:97-122` | a booking created during a run starts as a new case and then runs as one |
| `RunLaws.MoneyIsConservedInEveryRun` | `src/lib/ledger/apply.ts:40-83` | conservation for every charged booking in every reachable database, stated on the tables |
| `RunLaws.SentRefundIsFixedInEveryRun` | `src/lib/admin/dispute-review.ts:168-182` | a sent refund row stays as it is in every run of the application in which no report freeze changes the booking |
| `RunLaws.DisputeRowInEveryRun` | `src/lib/booking/transitions.ts:331-551` | in every run of the application a booking's dispute row tells its last decision, and each side's stamp its one accepted appeal |
| `PayoutSafety.PaidOutOnce` | `src/lib/admin/payout.ts:93-96` | a payout row, once written, stays as it is in every run, with marking paid as one step |
| `PayoutHolds.HostHoldCoversTheHost` | `src/lib/admin/payout.ts:171-210` | a hold on a host covers every booking of that host, so that marking any of them paid is refused, and no other booking |
| `PayoutHolds.BookingHoldCoversTheBooking` | `src/lib/admin/payout.ts:171-210` | a hold on a booking covers that booking and no other |
| `PayoutHolds.ReleasingUncovers` | `src/lib/admin/payout.ts:213-245` | after a release a booking is covered exactly if another active hold covers it |
| `PayoutHolds.PlacedAndReleased` | `src/lib/admin/payout.ts:171-245` | placing and releasing a hold leaves every booking covered as before |
| `PayoutHolds.PlaceHoldAcceptedIff` | `src/lib/admin/payout.ts:171-195` | when a hold is accepted, and which refusal it gets otherwise |
| `PayingRuns.HeldIsNeverPaid` | `src/lib/admin/payout.ts:115-142` | a booking covered by an active hold, its own or its host's, with no payer past its look at the holds, is not paid out in any run that does not release that hold |
| `PayingRuns.CoveredMayBePaidIff` | `src/lib/admin/payout.ts:97-161` | a covered, unpaid booking can still be paid out without that hold being released exactly when a payer is past its look at the holds and the money is RELEASABLE, or FROZEN with a dispute that can release it |
| `PayingRuns.PaidOutOnceByAnyone` | `src/lib/admin/payout.ts:93-96` | however many payers overlap and whoever dies, a payout row once written never changes |
| `PayingExamples.PayingAlone` | `src/lib/admin/payout.ts:97-161` | a payer that nobody interrupts does what marking paid in one step does |
| `PayingExamples.HeldAndPaid` | `src/lib/admin/payout.ts:127-142` | a run from the empty system: the checks pass, a hold on the booking is placed, and the booking is paid with the hold in force |
| `RunTermination.BookingsMoveFinitelyOften` | `src/lib/admin/report-review.ts:57-84` | in any run, each acceptance of a report being one step, one booking moves at most fourteen times, plus two for every report filed on it |
| `RunTermination.StepSpends` | `src/lib/admin/report-review.ts:57-126` | every step that moves a booking spends from its budget of rank and unread reports; only a newly filed report adds to it |
| `GlobalLedger.GlobalFoldIsSum` | `src/lib/ledger/apply.ts:40-56` | the fold over the whole log is the bucket-wise sum of the per-booking folds, for every interleaving |
| `GlobalLedger.GateIsSolvency` | `src/lib/admin/payout.ts:55-61` | in every sound database the invariant holds in any row order, and reconciliation passes exactly when the balance covers what is owed over all bookings |
| `BookingCodes.CodesAreGapFree` | `src/lib/ledger/code.ts:33-47` | for every month the numbers on confirmed bookings are exactly 1 to k, each once, with k the number of committed confirmations |
| `BookingCodes.CodeTextsAreDistinct` | `src/lib/booking/transitions.ts:201-206` | printed booking codes are pairwise distinct in every reachable database |
| `BookingCodes.CodeWrittenOnce` | `src/lib/booking/transitions.ts:201-206` | only a confirmation writes a code, and only on a booking without one |
| `HostStrikes.StrikesMatchCancellations` | `src/lib/booking/strikes.ts:16-28` | in every run whose manual strikes use another reason, a booking carries one HOST_CANCELLED strike exactly if it is CANCELLED_BY_HOST, and a host is suspended exactly from three strikes on |
| `HostStrikes.HostFaultIsFinal` | `src/lib/booking/transitions.ts:284-297` | a booking ends CANCELLED_BY_HOST exactly through a transition that blames the host, and never twice |
| `OperationRows.TransitionStrikes` | `src/lib/booking/transitions.ts:284-297` | the booking's host is struck for its own cancellation and for a full refund of a dispute, and for no other transition |
| `OperationRows.StrikeRows` | `src/lib/booking/strikes.ts:16-28` | a strike is appended, and its host suspended when the strikes naming it are three or more |
| `OperationRows.CreationRows` | `src/lib/booking/transitions.ts:97-122` | when a booking is created, which refusal it gets otherwise, and that nothing else changes |
| `OperationRows.ConfirmationRows` | `src/lib/booking/transitions.ts:185-209` | a fresh confirmation claims its event and puts the next number of the given month on the booking; a replay changes nothing |
| `OperationRows.PaymentRows` | `src/lib/payments/charge.ts:57-66` | a new payment is PENDING, a mark or a swap touches one row's status, and paid means a SUCCESSFUL row |
| `OperationRows.MarkPaidRows` | `src/lib/admin/payout.ts:97-142` | slip, booking, money, hold, account and reconciliation are asked in this order, then the newest account is paid |
| `OperationRows.FilingRows` | `src/lib/reports/create.ts:36-62` | a report on a booking comes from one of its parties |
| `OperationRows.ReviewRows` | `src/lib/admin/report-review.ts:57-84` | a waiting report goes into review together with its booking's freeze |
| `OperationRows.ClosingRows` | `src/lib/admin/report-review.ts:86-126` | an open report is closed for a reason, as resolved or dismissed |
| `OperationRows.TriageRows` | `src/lib/admin/report-review.ts:139-192` | unlisting and escalating ask for the kind of report only |
| `OperationRows.ReportStrikes` | `src/lib/admin/report-review.ts:198-221` | a strike from a report goes to the host of its booking or listing |
| `OperationRows.TrimIs` | `src/lib/admin/payout.ts:98-99` | trimming a slip or a reason takes white space off both ends and nothing else |
| `Persistence.Store.CurrentPosition` | `src/lib/ledger/apply.ts:59-83` | the loop over the booking's rows, read in any order, computes the cached state with the folded amount |
| `Persistence.Store.LedgerTotals` | `src/lib/ledger/apply.ts:40-56` | the loop over all rows, read in any order, computes the six totals of the whole ledger |
| `Persistence.Store.ApplyEvent` | `src/lib/ledger/apply.ts:86-109` | the write layer appends exactly the machine's rows and refreshes the cache of one booking, or changes nothing |
| `Persistence.RebuiltPosition` | `src/lib/ledger/apply.ts:86-109` | the position returned is the one the next call rebuilds from the rows |
| `Persistence.Store.ClaimWebhookEvent` | `src/lib/ledger/apply.ts:117-128` | true exactly for an event id not seen before, which is then recorded |
| `Persistence.Store.IssueBookingCode` | `src/lib/ledger/code.ts:33-47` | the month's counter goes up by one, from nothing to 1, and the code carries the new value |
| `Persistence.Store.IssueStrike` | `src/lib/booking/strikes.ts:16-28` | appends the strike and suspends the host from the third on |
| `Persistence.Store.RecordRefund` | `src/lib/booking/transitions.ts:585-592` | one refund row per booking |
| `Persistence.Store.UpsertRefund` | `src/lib/booking/transitions.ts:596-607` | overwrites the amounts and keeps a stored gateway id |
| `Transitions.Request` | `src/lib/booking/transitions.ts:97-106` | the method does to all tables what the specification says, or nothing |
| `Transitions.InstantHold` | `src/lib/booking/transitions.ts:113-122` | likewise, with the dates refused by the exclusion constraint |
| `Transitions.Accept` | `src/lib/booking/transitions.ts:127-133` | likewise for the host's acceptance |
| `Transitions.Decline` | `src/lib/booking/transitions.ts:136-142` | likewise for the host's refusal |
| `Transitions.Expire` | `src/lib/booking/transitions.ts:151-168` | likewise for an elapsed timer |
| `Transitions.ConfirmFromWebhook` | `src/lib/booking/transitions.ts:185-209` | a replay changes nothing; a refused confirmation also gives back the event claim and the code number; the result says whether this delivery confirmed |
| `Transitions.CheckIn` | `src/lib/booking/transitions.ts:214-220` | likewise for check-in |
| `Transitions.Complete` | `src/lib/booking/transitions.ts:227-240` | likewise for check-out, with full rollback |
| `Transitions.CancelByGuest` | `src/lib/booking/transitions.ts:249-278` | likewise, refund row and settlement rolled back together |
| `Transitions.CancelByHost` | `src/lib/booking/transitions.ts:284-297` | likewise, with the strike issued only after the settlement |
| `Transitions.OpenDispute` | `src/lib/booking/transitions.ts:305-320` | likewise; a refused freeze also takes back the dispute and the status |
| `Transitions.ResolveDispute` | `src/lib/booking/transitions.ts:331-399` | likewise for all three resolutions |
| `Transitions.AppealDispute` | `src/lib/booking/transitions.ts:419-460` | likewise for both sides |
| `Transitions.ResolveAppeal` | `src/lib/booking/transitions.ts:471-551` | likewise, dividing the position rebuilt from the log |
| `AdminDesk.Reconcile` | `src/lib/admin/payout.ts:55-61` | true exactly when the ledger invariant holds and the balance covers the obligation |
| `AdminDesk.MarkPaid` | `src/lib/admin/payout.ts:97-161` | every guard in order, then the ledger move and the payout row together or not at all |
| `AdminDesk.PlaceHold` | `src/lib/admin/payout.ts:171-210` | one scope and a reason required; escrow untouched |
| `AdminDesk.ReleaseHold` | `src/lib/admin/payout.ts:213-245` | lifts an active hold once |
| `AdminDesk.AcceptIntoReview` | `src/lib/admin/report-review.ts:57-84` | RECEIVED reports only; freezes a booking's money if HELD or RELEASABLE, together with the report's status |
| `AdminDesk.CloseReport` | `src/lib/admin/report-review.ts:86-126` | an open report is closed with a reason |
| `AdminDesk.UnlistFromReport` | `src/lib/admin/report-review.ts:139-161` | a listing report goes to IN_REVIEW from any status (the report's half of the operation) |
| `AdminDesk.EscalateToDispute` | `src/lib/admin/report-review.ts:168-192` | opens a dispute in the guest's name in one transaction and puts the report in review in a second; a process that dies in between leaves the first alone |
| `AdminDesk.StrikeHostFromReport` | `src/lib/admin/report-review.ts:198-221` | strikes the reported booking's or listing's host |
| `AdminDesk.RefundBookingToGuest` | `src/lib/payments/charge.ts:201-220` | run without interruption: stores a gateway id only for a positive, unsent refund of a paid booking (`RefundAlone.SendingAlone` ties it to the protocol) |
| `AdminDesk.FinalizeDisputeRefund` | `src/lib/admin/dispute-review.ts:168-182` | run without interruption: refused while the dispute is OPEN or escrow FROZEN, otherwise sends (`RefundAlone.FinalizingAlone` ties it to the protocol) |
| `RefundCounting.SentAtMostOnce` | `src/lib/payments/charge.ts:201-220` | over every interleaving of senders, crashes and other operations, a refund goes out at most once if whoever passes the null check finds no refund made and none on its way |
| `RefundCounting.MaySendTwiceIff` | `src/lib/payments/charge.ts:201-220` | with nobody else passing the null check, the guest can be sent two refunds exactly when those made and those on their way are two or more |
| `RefundRuns.MayGoWrongIff` | `src/lib/admin/dispute-review.ts:160-182` | from every reachable state, with nobody else passing the null check, what is sent can come to differ from the refund row, once, exactly when two refunds are made or on their way, or one is and its amount is not the row's or the dispute behind it can be re-decided |
| `RefundSafety.SentOnceAsOwed` | `src/lib/admin/dispute-review.ts:160-182` | if the null check is never passed with a decision pending or while another sender stands between check and store, no freeze is accepted between check and store, no sender dies between gateway and store, and no report freeze re-arms a dispute after that, then in every run the guest is sent nothing or, once, the row's amount, and at rest the row is marked exactly when that was sent |
| `RefundCancellations.CancelledIsRefundedOnce` | `src/lib/payments/charge.ts:192-220` | in every run, with no condition, a booking that never had a dispute is refunded at most once, with the amount of its row, and only after a cancellation |
| `RefundAlone.SendingAlone` | `src/lib/payments/charge.ts:201-220` | a sender nobody interrupts does what the one-step `SendRefund` says, and the guest is sent the row's amount exactly when it stores an id |
| `RefundAlone.FinalizingAlone` | `src/lib/admin/dispute-review.ts:168-182` | a finalization nobody interrupts is the one-step operation, also when its gate is shut |
| `RefundAlone.CancellingAlone` | `src/lib/payments/charge.ts:192-220` | a cancellation page nobody interrupts cancels and then sends |
| `RefundExamples.RefundsGoWrong` | `src/lib/payments/charge.ts:201-220` | three runs from the empty system for any two satang or more: two overlapping finalizations send the refund twice; a sender that dies after the gateway call lets a second one send it again; an appeal accepted between call and store grows a row whose smaller amount was sent |
| `JointRefunds.SuccessfulIsRecorded` | `src/lib/payments/charge.ts:117-122` | webhooks and refund senders run together, one event id per charge: a SUCCESSFUL payment row is that of the charge its booking's ledger records, is the only one of its booking, and is not refunded as stranded |
| `JointRefunds.SuccessfulForGood` | `src/lib/payments/charge.ts:205-208` | the payment a sender finds SUCCESSFUL stays the recorded one and is never refunded by a webhook in any continuation |
| `JointRefunds.OneChargeIsNeverOverRefunded` | `src/lib/payments/charge.ts:158-220` | what webhooks and senders together give back on the recorded charge never exceeds the booking's total, if the booking never had a dispute or the senders keep the discipline |
| `Sweeps.Sweep` | `src/lib/booking/sweeps.ts:21-35` | whatever the row order, each due booking goes through its own transition once, no other booking changes, and on a sound store every due row succeeds |
| `Sweeps.RunSweeps` | `src/lib/jobs/scheduler.ts:24-45` | one tick runs the five sweeps in order: each booking ends as the per-booking tick says |
| `Sweeps.MissedTicksDoNotMatter` | `src/lib/booking/sweeps.ts:38-134` | for any number of bookings, two whole ticks leave what the later alone would, reminder stamp aside; a repeated tick changes nothing |
| `Sweeps.TickTwice` | `src/lib/jobs/scheduler.ts:24-45` | one tick twice is one tick |
| `PartialTicks.CutInAJob` | `src/lib/jobs/scheduler.ts:24-45` | the store when a tick is cut off after any jobs and any rows of the next: every booking has gone through its share of some of the tick's jobs |
| `PartialTicks.CutTicksDoNotMatter` | `src/lib/jobs/scheduler.ts:24-45` | a tick cut short anywhere, then a full one, leaves what the full one alone would, reminder stamp aside |
| `Sweeps.DueSucceeds` | `src/lib/booking/sweeps.ts:38-134` | a row a sweep selects is never refused by its transition |
| `ChargeEvents.ApplyChargeEvent` | `src/lib/payments/charge.ts:88-131` | the tables an uninterrupted delivery leaves, for every charge status, refusal and gateway result |
| `ChargeEvents.DeliveryRows` | `src/lib/payments/charge.ts:88-131` | what a delivery leaves and what it answers, for each charge status and refusal |
| `ChargeEvents.RefundStrandedCharge` | `src/lib/payments/charge.ts:158-181` | REFUNDED exactly if the row was PENDING and the gateway call worked; otherwise the payments are as before |
| `ChargeEvents.SwapRow` | `src/lib/payments/charge.ts:163-166` | the compare-and-swap and its count |
| `ChargeEvents.CreateChargeForBooking` | `src/lib/payments/charge.ts:33-69` | for card and PromptPay: the refusals in order, a missing card token or return address and a failed gateway call among them, otherwise a new PENDING row and nothing else |
| `ChargeEvents.ChargeRefusals` | `src/lib/payments/charge.ts:38-56` | which refusal opening a charge gets, in order |
| `ChargeEvents.ChargingAlone` | `src/lib/payments/charge.ts:33-69` | the protocol's opening of a charge, left alone, does what the method does |
| `ChargeEvents.UninterruptedDelivery` | `src/lib/payments/charge.ts:88-181` | the protocol's handler, left alone, does what the method does and ends |
| `WebhookRuns.InvHolds` | `src/lib/payments/charge.ts:88-181` | the protocol invariant over every interleaving of handlers, crashes and other operations, with one event id per charge |
| `WebhookRuns.RecordedOnce` | `src/lib/booking/transitions.ts:185-209` | at most one charge of a booking is ever recorded in its ledger |
| `WebhookRuns.RecordedIsNeverRefunded` | `src/lib/payments/charge.ts:102-115` | the recorded charge is never refunded as stranded, nor about to be |
| `WebhookRuns.RefundedExactlyOnce` | `src/lib/payments/charge.ts:158-181` | any charge is refunded at most once, and exactly once whenever its row rests at REFUNDED with no handler holding the claim and none lost with it; without a payment row never |
| `WebhookSafety.HolderAccounts` | `src/lib/payments/charge.ts:158-181` | refunding, rolling back or dying, a claim holder passes its claim on to exactly one account |
| `LateDeliveries.LateDelivery` | `src/lib/payments/charge.ts:102-115` | a delivery under an unclaimed event id, for a paid charge of a booking past confirming, refunds it exactly if its row is PENDING |
| `LateDeliveries.SecondEventRefundsTheRecordedCharge` | `src/lib/payments/charge.ts:102-122` | a concrete run for every booking: a second event id for the confirmed charge, before the payment is marked, refunds the recorded charge |
| `RefundableCharges.MayBeRefundedIff` | `src/lib/payments/charge.ts:102-181` | after any run, whatever event ids were delivered, a paid charge of a booking past confirming, the recorded one included, can still be refunded as stranded exactly when its row is PENDING, or a handler holds its claim before the gateway call, is about to give the claim back, or is about to write the row |
| `LostClaims.MarkedAndNeverRefunded` | `src/lib/payments/charge.ts:150-181` | a run for every booking: the handler dies between claim and gateway call; the payment says REFUNDED and nothing is refunded in any continuation |
| `DueList.LoadPayoutDueList` | `src/lib/admin/payout.ts:274-339` | the loops over three query results build, per host in first-seen order, the host's lines, account and payable total |
| `DueListLaws.EveryDueBookingIsListed` | `src/lib/admin/payout.ts:274-339` | every RELEASABLE booking appears under its host |
| `DueListLaws.NothingIsListedTwice` | `src/lib/admin/payout.ts:274-339` | one group per host, and no line twice or for another host |
| `DueListLaws.NoteIffActiveHold` | `src/lib/admin/payout.ts:115-118` | a line shows a hold exactly when the active-hold query finds one, a booking's own before its host's |
| `DueListLaws.AccountIsNewest` | `src/lib/admin/payout.ts:121-125` | the account shown is the newest, the one a payout uses |
| `DueListLaws.GroupsByEarliest` | `src/lib/admin/payout.ts:266-273` | groups come in the order of each host's earliest check-out, the minimum over all the host's due bookings |
| `DueListLaws.GroupByCheckOut` | `src/lib/admin/payout.ts:266-339` | within a group the bookings come earliest check-out first |
| `DueListLaws.ListAgreesWithMarkPaid` | `src/lib/admin/payout.ts:97-161` | a line says what marking it paid would do: refused for a hold, for want of an account, or paid that amount to that account |
| `Seasons.FindSeasonOverlap` | `src/lib/listing/seasons.ts:29-42` | null exactly when no pair overlaps, otherwise the first pair in search order |
| `Seasons.DisjointMeansOneSeason` | `src/lib/listing/seasons.ts:20-42` | no overlap means no night in two seasons; for well-formed seasons the two are equivalent |
| `Seasons.ReversedSeasonIsNotReported` | `src/lib/listing/seasons.ts:25-28` | a single season that starts after it ends passes the search |
| `Seasons.BothEndsIncluded` | `src/lib/listing/seasons.ts:20-24` | a season holds on its first and its last night and on neither side of them; ranges that share an end overlap |
| `Pricing.EachNight` | `src/lib/pricing/quote.ts:94-105` | consecutive nights from check-in, check-out excluded; refused if check-out is not later |
| `Pricing.TwoWeekendNightsAWeek` | `src/lib/pricing/quote.ts:83-86` | any seven nights in a row have two weekend nights, anchored at January 1970 |
| `Pricing.ExactlyOneLayer` | `src/lib/pricing/quote.ts:114-152` | holiday or eve before the first matching season before base; of a season's or the base's two rates the weekend one exactly on Friday and Saturday nights |
| `Pricing.NightAcceptedIff` | `src/lib/pricing/quote.ts:107-152` | a night is priced exactly if the rate that applies is a non-negative safe integer; which error otherwise |
| `Pricing.QuoteFromItsLines` | `src/lib/pricing/quote.ts:155-185` | one priced line per night in order, the subtotal their sum, the fee for each guest above those included and each night |
| `Pricing.QuoteAcceptedIff` | `src/lib/pricing/quote.ts:155-185` | a quote is made exactly for a guest, a night, good rates, a good fee and a safe sum of fees |
| `Pricing.QuoteSplits` | `src/lib/pricing/quote.ts:155-185` | commission and host earnings make the total, both non-negative, the commission within half a satang of a tenth |
| `Pricing.CommissionIsATenth` | `src/lib/pricing/quote.ts:172-175` | ten times the commission is between 4 below and 5 above the total |
| `Pricing.QuoteOfSplitStay` | `src/lib/pricing/quote.ts:155-185` | splitting a stay: lines concatenate, subtotal, fee and total add exactly, commission differs by one satang at most |
| `Pricing.QuoteIgnoresSeasonOrder` | `src/lib/pricing/quote.ts:133-145` | when the overlap search finds nothing, the whole quote is the same for every order of the seasons |
| `Retry.SendsAreBounded` | `src/lib/notifications/retry.ts:23-73` | with any number of overlapping sweeps and crashes each attempt at a row is sent by one worker at most, and a row at most five times, first dispatch included |
| `Retry.ClaimKeeps` | `src/lib/notifications/retry.ts:49-55` | the winner of the compare-and-swap gets an attempt nobody has had |
| `RetryLimits.MayOverlapIff` | `src/lib/notifications/retry.ts:7-10` | while one worker is sending a message, another can come to send it too exactly when one already is, or the row is FAILED with attempts left |
| `RetryLimits.OverlappingTicksSendTwice` | `src/lib/notifications/retry.ts:7-10` | a concrete run: two overlapping ticks claim successive attempts and deliver the same message twice |
| `RetryLimits.MayBeSentIff` | `src/lib/notifications/retry.ts:9-10` | a message can still be sent exactly when a worker holds a claim on it, its failed first dispatch is still to be recorded, or it is FAILED with attempts left |
| `RetryLimits.ReadsSelectable` | `src/lib/notifications/retry.ts:23-29` | a sweep reads FAILED rows with fewer than five attempts and no others |
| `RetryLimits.DyingDispatcherLosesIt` | `src/lib/notifications/index.ts:43-75` | a dispatcher that dies before its first send leaves a QUEUED row that is never sent, whatever runs afterwards |
| `Notifications.NotificationLog.Dispatch` | `src/lib/notifications/index.ts:43-75` | the first dispatch is one of the protocol's runs: created, sent once, recorded |
| `Notifications.NotificationLog.SweepFailedNotifications` | `src/lib/notifications/retry.ts:23-73` | an uninterrupted sweep is one of the protocol's runs over its batch, and counts what it delivered |
| `Notifications.RetryPass` | `src/lib/notifications/retry.ts:49-70` | one turn at a row uses up one attempt, makes one send, and ends SENT or still FAILED |
| `Notifications.SweepOutcome` | `src/lib/notifications/retry.ts:23-73` | what a sweep leaves of each row: SENT or still FAILED with one more attempt if it may be sent, untouched otherwise |

## Left out

- Transitions.Accept: as a method and in runs of the application, the read and the write outside a transaction are one step, and so they are for `Decline`, `Expire` and `CheckIn`; the late write is in `StaleReads`, for one booking, and not interleaved with the other protocols.
- CaseLaws.ReportFreezeNeverRefused: the read before the transaction is one step with it, here and in runs of the application; the late freeze is in `StaleReads`.
- RunTermination.BookingsMoveFinitelyOften: counts a report once; two overlapping acceptances of one report can freeze twice.
- AdminDesk.MarkPaid: one step, with the balance as an input; interleavings and crashes are in `Paying`.
- AdminDesk.EscalateToDispute: in runs of the application the second transaction is an action of its own, which may also come without the first; every law of all runs covers that too.
- AdminDesk.UnlistFromReport: the listing's own change of status, made in the same transaction, is not modelled.
- Transitions.Accept: the double-booking exclusion constraint is an input saying whether the dates were taken; so it is for instant holds.
- AdminDesk.RefundBookingToGuest: one step, with the gateway's answer as an input; interleavings and crashes are in `RefundSending`.
- AdminDesk.FinalizeDisputeRefund: one step, likewise.
- RefundSafety.SentOnceAsOwed: the gateway refunds the amount it is asked for whenever it answers with an id; a refund whose answer is lost is a sender that dies after the call. In the webhook protocol a gateway call that fails is taken to have refunded nothing.
- WebhookRuns.RefundedExactlyOnce: charges without a booking reference, and charges the gateway reports as reversed, are ignored by the program and left out.
- ChargeEvents.CreateChargeForBooking: the amount and the QR expiry of the charge are left out; the gap between the guard and the new row is modelled in `Webhook`.
- DueListLaws.AccountIsNewest: for accounts of one host created at different times; which of two equally old accounts a query returns is up to the database.
- Refund.RefundForPct: percentages are integers, as the column that stores them is; the callers only pass 0 to 100.
- Pricing.QuoteSplits: sums are mathematical integers; the program checks each amount against the safe-integer range but not every sum.
- Codes.CodeTextIsInjective: the month key is an input with a two-digit year and a month; reading them off the clock in Bangkok time is not modelled, and two centuries share a key as they do in the program.
- Transitions that return the updated booking row return only success here; the row is in the store.
- Audit-log rows, notifications sent by the operations, and the columns resolvedAt, paidAt, contactUnmaskedAt, triageAt, createdAt (except for accounts), photos of reports, and their text with the refusal of an empty one.
- The price-line, house-rule and guest-note snapshots stored with a booking: nothing modelled reads them.
- Prisma, SQL and isolation levels: tables are maps and sequences, a transaction is one step.
- The scheduler's started and running flags, its other jobs (OTP, KYC, concierge and message retention), and logging.
- HTTP to the gateway and the webhook route's parsing; sessions, authorisation and field encryption.
- Templates, preferences and drivers of notifications: inputs saying whether a row may be sent and whether the driver delivers. The batch limit of 100 rows is a limit on the batch passed in.
- Listing and KYC approval, search, reviews, messaging, concierge chat: outside the money core, or single guarded writes.
