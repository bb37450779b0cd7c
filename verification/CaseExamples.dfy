/** Histories from a new booking to the states in which the design's promises fail: the
    exact conditions proved elsewhere are met by real bookings. */
module CaseExamples {
  import opened Wrappers
  import opened Money
  import opened Escrow
  import opened Refund
  import opened Codes
  import opened Bookings
  import opened CaseInvariants
  import opened CaseLaws
  import opened CaseHistories
  import opened CaseOutcomes

  /** An instant booking, as it is created. */
  function NewHold(id: Id, terms: Terms): Case {
    NewCase(id, InstantRow(terms, 0))
  }

  /** Paid and checked in. */
  function Staying(event: Id, code: Code): seq<CaseAction> {
    [Confirming(event, code)] + [CheckingIn]
  }

  /** Disputed during the stay and decided at fifty percent. */
  function HalfRefunded(event: Id, code: Code, guest: Id): seq<CaseAction> {
    Staying(event, code) + [OpeningDispute(guest, event)] + [ResolvingDispute(event, PartialRefund(50))]
  }

  lemma RunSnoc(c: Case, actions: seq<CaseAction>, a: CaseAction)
    ensures CaseRun(c, actions + [a]) == CaseStep(CaseRun(c, actions), a)
  {
    assert (actions + [a])[..|actions|] == actions;
  }

  /** A new booking with a positive total gets to its stay with all its money HELD. */
  lemma GetsToItsStay(id: Id, terms: Terms, event: Id, code: Code)
    requires FitsColumn(terms.total) && 0 < terms.total
    ensures var c := CaseRun(NewHold(id, terms), Staying(event, code));
            && CaseOk(c) && c.row.status.CheckedIn? && c.row.escrow.Held?
            && c.row.terms == terms.(mode := InstantMode)
  {
    var c := NewHold(id, terms);
    NewCaseIsOk(id, InstantRow(terms, 0));
    ConfirmAcceptedIff(c, event, code);
    OneStepRun(c, Confirming(event, code));
    RunSnoc(c, [Confirming(event, code)], CheckingIn);
    CaseRunKeeps(c, Staying(event, code));
    ConfirmedIsHeld(c, event, code, CaseStep(c, Confirming(event, code)));
  }

  lemma ConfirmedIsHeld(c: Case, event: Id, code: Code, c': Case)
    requires c.Confirm(event, code) == Success(c')
    ensures c'.row.status.Confirmed? && c'.row.escrow.Held? && c'.row.terms == c.row.terms
  {
  }

  /** A report taken into review during that stay traps the money for good. */
  lemma ReportTrapsAStay(id: Id, terms: Terms, event: Id, code: Code, report: Id)
    requires FitsColumn(terms.total) && 0 < terms.total
    ensures var story := Staying(event, code) + [FreezingForReport(report)];
            && Trapped(CaseRun(NewHold(id, terms), story))
            && forall rest :: CaseRun(CaseRun(NewHold(id, terms), story), rest).row.escrow.Frozen?
  {
    var staying := CaseRun(NewHold(id, terms), Staying(event, code));
    var story := Staying(event, code) + [FreezingForReport(report)];
    var c := CaseRun(NewHold(id, terms), story);
    GetsToItsStay(id, terms, event, code);
    RunSnoc(NewHold(id, terms), Staying(event, code), FreezingForReport(report));
    ReportFreezeNeverRefused(staying, report);
    FreezeKeepsMoney(staying, staying, HoldBookingReport, Some(report), c);
    ReportFreezeKeeps(staying, report, c);
    forall rest
      ensures CaseRun(c, rest).row.escrow.Frozen?
    {
      TrappedForever(c, rest);
    }
  }

  /** Half of the total, a fractional satang going to the guest. */
  lemma HalfRoundsUp(total: int)
    requires 2 <= total
    ensures RefundForPct(total, 50) == (total + 1) / 2 < total
  {
  }

  /** The same stay, disputed and decided at fifty percent: the guest's half is owed, the
      rest RELEASABLE. */
  lemma GetsToAPartialRefund(id: Id, terms: Terms, event: Id, code: Code)
    requires FitsColumn(terms.total) && 2 <= terms.total
    ensures var c := CaseRun(NewHold(id, terms), HalfRefunded(event, code, terms.guest));
            && CaseOk(c) && c.row.status.Completed? && c.row.escrow.Releasable? && Reopenable(c) && !Sent(c)
            && c.row.terms == terms.(mode := InstantMode)
            && c.PriorRefund() == Fold(c.entries, Refunded) == (terms.total + 1) / 2
            && c.dispute.value.guestAppealedAt.None?
  {
    var c := NewHold(id, terms);
    var disputing := Staying(event, code) + [OpeningDispute(terms.guest, event)];
    var staying, disputed := CaseRun(c, Staying(event, code)), CaseRun(c, disputing);
    var decided := CaseRun(c, HalfRefunded(event, code, terms.guest));
    GetsToItsStay(id, terms, event, code);
    RunSnoc(c, Staying(event, code), OpeningDispute(terms.guest, event));
    OpenDisputeAcceptedIff(staying, terms.guest, event);
    OpenDisputeKeeps(staying, terms.guest, event, disputed);
    RunSnoc(c, disputing, ResolvingDispute(event, PartialRefund(50)));
    ResolveDisputeAcceptedIff(disputed, event, PartialRefund(50));
    HalfIsRefunded(disputed, event, decided);
    NobodyAppealed(staying, terms.guest, event, disputed);
    StillNobodyAppealed(disputed, event, decided);
  }

  lemma NobodyAppealed(c: Case, userId: Id, disputeId: Id, c': Case)
    requires c.OpenDispute(userId, disputeId) == Success(c')
    ensures c'.dispute.Some? && c'.dispute.value.guestAppealedAt.None?
  {
  }

  lemma StillNobodyAppealed(c: Case, admin: Id, c': Case)
    requires c.ResolveDispute(admin, PartialRefund(50)) == Success(c')
    ensures c.dispute.Some? && c'.dispute.Some?
    ensures c'.dispute.value.guestAppealedAt == c.dispute.value.guestAppealedAt
  {
  }

  lemma OpenedIsUnrefunded(c: Case)
    requires CaseOk(c) && c.row.status.Disputed?
    ensures c.refund.None? && c.CurrentPosition().amount == c.row.terms.total && c.PriorRefund() == 0
  {
  }

  lemma HalfIsRefunded(c: Case, admin: Id, c': Case)
    requires CaseOk(c) && c.row.status.Disputed? && 2 <= c.row.terms.total
    requires c.ResolveDispute(admin, PartialRefund(50)) == Success(c')
    ensures CaseOk(c') && c'.row.status.Completed? && c'.row.escrow.Releasable? && Reopenable(c') && !Sent(c')
    ensures c'.row.terms == c.row.terms
    ensures c'.PriorRefund() == Fold(c'.entries, Refunded) == (c.row.terms.total + 1) / 2
  {
    var a := ResolvingDispute(admin, PartialRefund(50));
    OpenedIsUnrefunded(c);
    ResolveDisputeKeeps(c, admin, PartialRefund(50), c');
    Decision(c, a, c');
    DecisionEffect(c, a, c');
    HalfRoundsUp(c.row.terms.total);
    HalfLeavesReleasable(c, admin, c');
  }

  lemma HalfLeavesReleasable(c: Case, admin: Id, c': Case)
    requires c.ResolveDispute(admin, PartialRefund(50)) == Success(c')
    requires RefundForPct(c.row.terms.total, 50) < c.CurrentPosition().amount
    ensures c'.row.escrow.Releasable? && !Sent(c') && c'.dispute.Some?
  {
  }

  /** Once sent, that refund can still change, and the completed booking be cancelled. */
  lemma SentAndReopenable(id: Id, terms: Terms, event: Id, code: Code, refundId: Id)
    requires FitsColumn(terms.total) && 2 <= terms.total
    ensures var story := HalfRefunded(event, code, terms.guest) + [Finalizing(true, Some(refundId))];
            var c := CaseRun(NewHold(id, terms), story);
            && CaseOk(c) && Sent(c) && Reopenable(c) && c.PriorRefund() == (terms.total + 1) / 2
            && c.row.status.Completed? && CaseRun(c, Reopening()).row.status.CancelledByHost?
            && CaseRun(c, Reopening()).PriorRefund() == terms.total
            && CaseRun(c, Reopening()).refund.value.opnRefundId == c.refund.value.opnRefundId
  {
    var c := NewHold(id, terms);
    var decided := CaseRun(c, HalfRefunded(event, code, terms.guest));
    var sent := CaseStep(decided, Finalizing(true, Some(refundId)));
    GetsToAPartialRefund(id, terms, event, code);
    RunSnoc(c, HalfRefunded(event, code, terms.guest), Finalizing(true, Some(refundId)));
    FinalizingSends(decided, refundId, sent);
    ReopeningGrowsRefund(sent);
  }

  lemma FinalizingSends(c: Case, refundId: Id, c': Case)
    requires CaseOk(c) && Reopenable(c) && c.row.escrow.Releasable? && !Sent(c) && 0 < c.PriorRefund()
    requires c' == CaseStep(c, Finalizing(true, Some(refundId)))
    ensures CaseOk(c') && Sent(c') && Reopenable(c')
    ensures c'.PriorRefund() == c.PriorRefund() && c'.row == c.row
  {
  }

  /** Paid out after a fifty percent refund of 1000 at a commission of 100, the host is
      recorded 900 against a PAID move of 500. */
  lemma OverpayingPayout(id: Id, terms: Terms, event: Id, code: Code, account: Id, slipRef: string)
    requires terms.total == 1000 && terms.commission == 100
    ensures var before := CaseRun(NewHold(id, terms), HalfRefunded(event, code, terms.guest));
            var c := CaseRun(NewHold(id, terms), HalfRefunded(event, code, terms.guest)
                + [PayingOut(event, account, slipRef)]);
            && c.payout.Some? && c.payout.value.hostAmount == 900
            && |c.entries| == |before.entries| + 1
            && c.entries[|before.entries|].move.to.Paid? && c.entries[|before.entries|].move.amount == 500
  {
    var before := CaseRun(NewHold(id, terms), HalfRefunded(event, code, terms.guest));
    GetsToAPartialRefund(id, terms, event, code);
    RunSnoc(NewHold(id, terms), HalfRefunded(event, code, terms.guest), PayingOut(event, account, slipRef));
    PayOutAcceptedIff(before, event, account, slipRef);
    var c := CaseStep(before, PayingOut(event, account, slipRef));
    PayOutKeeps(before, event, account, slipRef, c);
    PayoutAgainstLedger(before, event, account, slipRef, c);
    SameTerms(before, event, account, slipRef, c);
  }

  lemma SameTerms(c: Case, admin: Id, account: Id, slipRef: string, c': Case)
    requires c.PayOut(admin, account, slipRef) == Success(c')
    ensures c'.payout.Some? && c'.payout.value.hostAmount == c.row.terms.total - c.row.terms.commission
  {
  }
}
