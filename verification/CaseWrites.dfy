/** What each accepted transition leaves in the tables, field by field: the status and its
    timers, every ledger row with its cause and reference, the refund and the payout. */
module CaseWrites {
  import opened Wrappers
  import opened Escrow
  import opened Refund
  import opened Codes
  import opened Bookings
  import opened CaseInvariants
  import opened CaseLaws

  // ---- Ledger rows ----

  /** The rows of a settlement: the guest's part first, under the given cause, then what
      stays owed to the host. */
  function Settlement(c: Case, refund: int, cause: LedgerCause, causeRef: Option<Id>): seq<Entry> {
    var pot := c.CurrentPosition().amount;
    (if refund == 0 then [] else [Entry(c.id, Move(c.row.escrow, Reversed, refund, cause), causeRef, None)])
    + (if refund == pot then []
       else [Entry(c.id, Move(c.row.escrow, Releasable, pot - refund, ReleaseHoldLifted), causeRef, None)])
  }

  lemma SettleAppends(c: Case, refund: int, cause: RefundCause, causeRef: Option<Id>, c': Case)
    requires LedgerOk(c) && c.ApplyEvent(Settle(refund, cause), causeRef, None) == Success(c')
    ensures c'.entries == c.entries + Settlement(c, refund, cause, causeRef)
    ensures c' == c.(entries := c'.entries, row := c.row.(escrow := c'.row.escrow))
    ensures c'.row.escrow == if refund == c.CurrentPosition().amount then Reversed else Releasable
  {
    SettleMoves(c.CurrentPosition(), Settle(refund, cause));
  }

  /** All of the money moves at once. */
  lemma ShiftAppends(c: Case, event: EscrowEvent, causeRef: Option<Id>, actor: Option<Id>, c': Case)
    requires !event.Settle? && c.ApplyEvent(event, causeRef, actor) == Success(c')
    ensures var to := match event
                      case Charge(_) => Held
                      case Release => Releasable
                      case Freeze(_) => Frozen
                      case _ => Paid;
            var cause := match event
                         case Charge(_) => ChargeWebhook
                         case Release => ReleaseCheckout
                         case Freeze(why) => why
                         case _ => PaidAdminTransfer;
            var amount := if event.Charge? then event.amount else c.CurrentPosition().amount;
            c' == c.(row := c.row.(escrow := to),
                     entries := c.entries + [Entry(c.id, Move(c.row.escrow, to, amount, cause), causeRef, actor)])
  {
  }

  // ---- Before the stay ----

  /** The host's answer, the expiry and the check-in write the status; an acceptance also
      the twelve hours the guest has to pay. */
  lemma AnswerWrites(c: Case, a: CaseAction, c': Case)
    requires a.Accepting? || a.Declining? || a.Expiring? || a.CheckingIn?
    requires CaseNext(c, a) == Success(c')
    ensures var timers := if a.Accepting? then c.row.timers.(payBy := Some(a.now + 43200000)) else c.row.timers;
            var status := match a
                          case Accepting(_, _, _) => AwaitingPayment
                          case Declining(_) => Declined
                          case Expiring(_) => BookingStatus.Expired
                          case _ => CheckedIn;
            c' == c.(row := c.row.(status := status, timers := timers))
  {
  }

  /** A confirmation writes the code and one ledger row, the charge under its event. */
  lemma ConfirmWrites(c: Case, event: Id, code: Code, c': Case)
    requires CaseOk(c) && c.Confirm(event, code) == Success(c')
    ensures var charge := Entry(c.id, Move(Uncharged, Held, c.row.terms.total, ChargeWebhook), Some(event), None);
            c' == c.(row := c.row.(status := Confirmed, code := Some(code), escrow := Held), entries := [charge])
  {
    ShiftAppends(c.(row := c.row.(status := Confirmed, code := Some(code))), Charge(c.row.terms.total), Some(event),
        None, c');
  }

  /** A completed stay releases all its money, unless a report has frozen it. */
  lemma CompleteWrites(c: Case, c': Case)
    requires CaseOk(c) && c.Complete() == Success(c')
    ensures var release := Entry(c.id, Move(Held, Releasable, c.row.terms.total, ReleaseCheckout), None, None);
            c' == if c.row.escrow.Held? then
                    c.(row := c.row.(status := Completed, escrow := Releasable), entries := c.entries + [release])
                  else c.(row := c.row.(status := Completed))
  {
    FullPot(c);
    if c.row.escrow.Held? {
      ShiftAppends(c.WithStatus(Completed), Release, None, None, c');
    }
  }

  // ---- Cancellations ----

  /** A guest who cancels a confirmed booking gets a refund row for what goes back and the
      settlement that splits the total; before payment nothing but the status changes. */
  lemma CancelByGuestWrites(c: Case, userId: Id, now: int, c': Case)
    requires CaseOk(c) && c.CancelByGuest(userId, now) == Success(c')
    ensures var refund := c'.PriorRefund();
            c' == if c.row.status.Confirmed? then
                    c.(row := c.row.(status := CancelledByGuest,
                                     escrow := if refund == c.row.terms.total then Reversed else Releasable),
                       entries := c.entries + Settlement(c, refund, RefundGuestTier, None),
                       refund := Some(RefundRow(Breakdown(c.row.terms.total, refund), None)))
                  else c.(row := c.row.(status := CancelledByGuest))
  {
    if c.row.status.Confirmed? {
      FullPot(c);
      LedgerIsOk(c);
      var amounts := ComputeRefund(c.row.terms.total, c.row.terms.tier, DaysUntil(c.row.terms.checkIn, now));
      var b := c.WithStatus(CancelledByGuest).RecordRefund(amounts).value;
      SettleAppends(b, amounts.refund, RefundGuestTier, None, c');
    }
  }

  /** A host who cancels gives everything back. */
  lemma CancelByHostWrites(c: Case, hostId: Id, c': Case)
    requires CaseOk(c) && c.CancelByHost(hostId) == Success(c')
    ensures var total := c.row.terms.total;
            var back := Entry(c.id, Move(c.row.escrow, Reversed, total, RefundHostCancelled), None, None);
            c' == c.(row := c.row.(status := CancelledByHost, escrow := Reversed), entries := c.entries + [back],
                     refund := Some(RefundRow(Breakdown(total, total), None)))
  {
    FullPot(c);
    LedgerIsOk(c);
    var b := c.WithStatus(CancelledByHost).RecordRefund(Breakdown(c.row.terms.total, c.row.terms.total)).value;
    SettleAppends(b, c.row.terms.total, RefundHostCancelled, None, c');
  }

  // ---- Disputes ----

  lemma OpenDisputeWrites(c: Case, userId: Id, disputeId: Id, c': Case)
    requires CaseOk(c) && c.OpenDispute(userId, disputeId) == Success(c')
    ensures var freeze := Entry(c.id, Move(Held, Frozen, c.row.terms.total, HoldDisputeOpened), Some(disputeId), None);
            c' == c.(row := c.row.(status := Disputed, escrow := Frozen), entries := c.entries + [freeze],
                     dispute := c'.dispute)
  {
    FullPot(c);
    var b := c.WithStatus(Disputed).(dispute := Some(Dispute(disputeId, Open, None, None, None)));
    ShiftAppends(b, Freeze(HoldDisputeOpened), Some(disputeId), None, c');
  }

  /** What a decision takes out of a pot for the guest: the least whole amount covering the
      percentage, everything, or nothing. */
  function Slice(pot: int, res: Resolution): int {
    match res
    case ReleaseAll => 0
    case PartialRefund(pct) => RefundForPct(pot, pct)
    case RefundAll => pot
  }

  /** A decision settles the pot under its own cause and the administrator's name, sets the
      status, and adds the guest's part to the refund row. */
  predicate Decides(c: Case, admin: Id, res: Resolution, c': Case) {
    var pot := c.CurrentPosition().amount;
    var slice := Slice(pot, res);
    var refund := c.PriorRefund() + slice;
    var sent := if c.refund.Some? then c.refund.value.opnRefundId else None;
    && c'.row == c.row.(status := if res.RefundAll? then CancelledByHost else Completed,
                        escrow := if slice == pot then Reversed else Releasable)
    && c'.entries == c.entries
       + Settlement(c, slice, if res.PartialRefund? then RefundDisputePartial else RefundDisputeFull, Some(admin))
    && c'.refund == (if res.ReleaseAll? then c.refund else Some(RefundRow(Breakdown(c.row.terms.total, refund), sent)))
    && c' == c.(row := c'.row, entries := c'.entries, refund := c'.refund, dispute := c'.dispute)
  }

  /** The case with its decision written, settled. */
  lemma SettlementDecides(c: Case, b: Case, admin: Id, res: Resolution, c': Case)
    requires LedgerOk(c) && b.entries == c.entries && b.id == c.id && b.payout == c.payout
    requires b.row == c.row.(status := if res.RefundAll? then CancelledByHost else Completed)
    requires var sent := if c.refund.Some? then c.refund.value.opnRefundId else None;
             var refund := c.PriorRefund() + Slice(c.CurrentPosition().amount, res);
             b.refund == if res.ReleaseAll? then c.refund
                         else Some(RefundRow(Breakdown(c.row.terms.total, refund), sent))
    requires var cause := if res.PartialRefund? then RefundDisputePartial else RefundDisputeFull;
             b.ApplyEvent(Settle(Slice(c.CurrentPosition().amount, res), cause), Some(admin), None) == Success(c')
    ensures Decides(c, admin, res, c')
  {
    var cause := if res.PartialRefund? then RefundDisputePartial else RefundDisputeFull;
    SettleAppends(b, Slice(c.CurrentPosition().amount, res), cause, Some(admin), c');
  }

  lemma ResolveDisputeWrites(c: Case, admin: Id, res: Resolution, c': Case)
    requires CaseOk(c) && c.ResolveDispute(admin, res) == Success(c')
    ensures Decides(c, admin, res, c')
  {
    FullPot(c);
    LedgerIsOk(c);
    var slice := GuestSlice(c.row.terms.total, res);
    var decided := c.WithStatus(StatusAfter(res)).(dispute := Some(ResolvedAs(c.dispute.value, res)));
    var b := if res.ReleaseAll? then decided else decided.RecordRefund(Breakdown(c.row.terms.total, slice)).value;
    SettlementDecides(c, b, admin, res, c');
  }

  lemma ResolveAppealWrites(c: Case, admin: Id, res: Resolution, c': Case)
    requires CaseOk(c) && c.ResolveAppeal(admin, res) == Success(c')
    ensures Decides(c, admin, res, c')
  {
    LedgerIsOk(c);
    var slice := GuestSlice(c.CurrentPosition().amount, res);
    var decided := c.WithStatus(StatusAfter(res)).(dispute := Some(ResolvedAs(c.dispute.value, res)));
    var b := if res.ReleaseAll? then decided
             else decided.UpsertRefund(Breakdown(c.row.terms.total, c.PriorRefund() + slice));
    SettlementDecides(c, b, admin, res, c');
  }

  /** An appeal freezes what is left, under its dispute's id. */
  lemma AppealWrites(c: Case, userId: Id, side: Side, now: int, c': Case)
    requires CaseOk(c) && c.AppealDispute(userId, side, now) == Success(c')
    ensures var pot := c.CurrentPosition().amount;
            var freeze := Entry(c.id, Move(Releasable, Frozen, pot, HoldDisputeOpened), Some(c.dispute.value.id), None);
            c' == c.(row := c.row.(escrow := Frozen), entries := c.entries + [freeze], dispute := c'.dispute)
  {
    AppealAcceptedIff(c, userId, side, now);
    var b := c.(dispute := c'.dispute);
    ShiftAppends(b, Freeze(HoldDisputeOpened), Some(c.dispute.value.id), None, c');
  }

  // ---- Reports, payouts and marks ----

  /** A report freezes HELD or RELEASABLE money under its own id, and nothing else. */
  lemma ReportFreezeWrites(c: Case, report: Id, c': Case)
    requires c.ReportFreeze(report) == Success(c')
    ensures var pot := c.CurrentPosition().amount;
            var freeze := Entry(c.id, Move(c.row.escrow, Frozen, pot, HoldBookingReport), Some(report), None);
            c' == if c.row.escrow.Held? || c.row.escrow.Releasable? then
                    c.(row := c.row.(escrow := Frozen), entries := c.entries + [freeze])
                  else c
  {
    if c.row.escrow.Held? || c.row.escrow.Releasable? {
      ShiftAppends(c, Freeze(HoldBookingReport), Some(report), None, c');
    }
  }

  /** A payout discharges what is left under the administrator's name, and records total
      less commission for the host, with the account and the slip. */
  lemma PayOutWrites(c: Case, admin: Id, account: Id, slipRef: string, c': Case)
    requires CaseOk(c) && c.PayOut(admin, account, slipRef) == Success(c')
    ensures var pay := Entry(c.id, Move(Releasable, Paid, c.CurrentPosition().amount, PaidAdminTransfer), Some(admin),
                             Some(admin));
            c' == c.(row := c.row.(escrow := Paid), entries := c.entries + [pay],
                     payout := Some(Payout(account, c.row.terms.total - c.row.terms.commission, slipRef, admin)))
  {
    PayOutAcceptedIff(c, admin, account, slipRef);
    ShiftAppends(c, Pay, Some(admin), Some(admin), c.ApplyEvent(Pay, Some(admin), Some(admin)).value);
  }

  /** A sent refund is marked with the gateway's id, exactly if one is owed and unsent, the
      booking is paid and the gateway has answered. */
  lemma SenderWrites(c: Case, a: CaseAction, c': Case)
    requires a.RefundingCancelled? || a.Finalizing?
    requires CaseNext(c, a) == Success(c')
    ensures var sends := && c.refund.Some? && 0 < c.refund.value.amounts.refund && c.refund.value.opnRefundId.None?
                         && a.paid && a.gateway.Some?;
            c' == if sends then c.(refund := Some(c.refund.value.(opnRefundId := a.gateway))) else c
  {
  }

  /** A reminder is stamped once. */
  lemma ReminderWrites(c: Case, now: int, c': Case)
    requires CaseNext(c, Reminding(now)) == Success(c')
    ensures c' == if c.row.timers.remindedAt.Some? then c
                  else c.(row := c.row.(timers := c.row.timers.(remindedAt := Some(now))))
  {
  }

  // ---- New rows ----

  /** A request waits twelve hours for its host, an instant hold one hour for its payment;
      the terms are stored as they were given, but for the mode. */
  lemma NewRowsWrite(terms: Terms, now: int)
    ensures RequestRow(terms, now)
            == Booking(Terms(terms.guest, terms.host, terms.checkIn, terms.checkOut, terms.total, terms.commission,
                             terms.tier, RequestMode),
                       Requested, Timers(Some(now + 43200000), None, None), None, Uncharged)
    ensures InstantRow(terms, now)
            == Booking(Terms(terms.guest, terms.host, terms.checkIn, terms.checkOut, terms.total, terms.commission,
                             terms.tier, InstantMode),
                       AwaitingPayment, Timers(None, Some(now + 3600000), None), None, Uncharged)
  {
  }
}
