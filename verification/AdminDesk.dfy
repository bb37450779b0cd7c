/** The administrator's operations on the store: payouts and holds, report triage, and
    sending a refund to the gateway. */
module AdminDesk {
  import opened Wrappers
  import opened Escrow
  import opened Bookings
  import opened Database
  import opened Operations
  import opened Persistence
  import Transitions

  // ---- Payouts ----

  /** Safe to pay out: the ledger is sound and the balance covers the obligation. */
  method Reconcile(s: Store, balance: int) returns (ok: bool)
    ensures ok == ReconcileOk(s.ledger, balance)
  {
    var totals := s.LedgerTotals();
    var obligation := totals[InHeld] + totals[InReleasable] + totals[InFrozen];
    var invariantOk := obligation == totals[Bucket.Received] - totals[Refunded] - totals[PaidOut];
    ok := invariantOk && balance >= obligation;
  }

  /** Discharge a RELEASABLE booking's escrow to the host, with its payout record. */
  method MarkPaid(s: Store, admin: Id, id: Id, slipRef: string, balance: int) returns (r: Outcome)
    modifies s
    ensures Commits(Operations.MarkPaid(old(s.Tables()), admin, id, slipRef, balance), old(s.Tables()), s.Tables(), r)
  {
    var slip := Trim(slipRef);
    if slip == "" {
      return Failure(SlipRequired);
    }
    if id !in s.bookings {
      return Failure(NotFound);
    }
    var booking := s.bookings[id];
    if booking.escrow != Releasable {
      return Failure(NotReleasable);
    }
    if ActiveHold(s.Tables(), id, booking.terms.host) {
      return Failure(OnHold);
    }
    var account := NewestAccount(s.accounts, booking.terms.host);
    if account.None? {
      return Failure(NoPayoutAccount);
    }
    var ok := Reconcile(s, balance);
    if !ok {
      return Failure(ReconcileBlocked);
    }
    r := RecordPayout(s, id, admin, account.value.id, slip);
  }

  /** The transaction: the ledger move and the payout row commit together. */
  method RecordPayout(s: Store, id: Id, admin: Id, account: Id, slip: string) returns (r: Outcome)
    requires id in s.bookings
    modifies s
    ensures Commits(Act(old(s.Tables()), id, PayingOut(admin, account, slip)), old(s.Tables()), s.Tables(), r)
  {
    var saved := s.Tables();
    s.Opens(id);
    ghost var c := CaseOf(saved, id);
    var hostAmount := s.bookings[id].terms.total - s.bookings[id].terms.commission;
    var paid := s.ApplyEvent(saved, id, c, Pay, Some(admin), Some(admin));
    if paid.Failure? {
      s.Rollback(saved, id, c);
      return Failure(paid.error);
    }
    c := c.ApplyEvent(Pay, Some(admin), Some(admin)).value;
    r := s.CreatePayout(saved, id, c, Payout(account, hostAmount, slip, admin));
    if r.Failure? {
      s.Rollback(saved, id, c);
    }
  }

  /** An administrative hold: the escrow state stays where it is. */
  method PlaceHold(s: Store, hold: Id, id: Option<Id>, host: Option<Id>, reason: string) returns (r: Outcome)
    modifies s`holds
    ensures Commits(Operations.PlaceHold(old(s.Tables()), hold, id, host, reason), old(s.Tables()), s.Tables(), r)
  {
    var trimmed := Trim(reason);
    if id.Some? == host.Some? {
      return Failure(TargetRequired);
    }
    if trimmed == "" {
      return Failure(ReasonRequired);
    }
    if id.Some? && id.value !in s.bookings {
      return Failure(NotFound);
    }
    if hold in s.holds {
      return Failure(DuplicateRow);
    }
    s.holds := s.holds[hold := Hold(if id.Some? then BookingHold(id.value) else HostHold(host.value), trimmed, false)];
    r := Success(());
  }

  method ReleaseHold(s: Store, hold: Id) returns (r: Outcome)
    modifies s`holds
    ensures Commits(Operations.ReleaseHold(old(s.Tables()), hold), old(s.Tables()), s.Tables(), r)
  {
    if hold !in s.holds || s.holds[hold].released {
      return Failure(NotFound);
    }
    s.holds := s.holds[hold := s.holds[hold].(released := true)];
    r := Success(());
  }

  // ---- Refunds ----

  /** Send what is owed to the guest, once. A gateway failure leaves the refund owed. */
  method RefundBookingToGuest(s: Store, id: Id, gateway: Option<Id>)
    requires id in s.bookings
    modifies s
    ensures var before := old(s.Tables());
            s.Tables() == Put(before, id, CaseOf(before, id).SendRefund(HasPaid(before, id), gateway))
  {
    var before := s.Tables();
    s.Opens(id);
    if id !in s.refunds || s.refunds[id].amounts.refund <= 0 || s.refunds[id].opnRefundId.Some? {
      return;
    }
    if !HasPaid(before, id) {
      return;
    }
    match gateway {
      case None =>
      case Some(opnRefundId) => s.SetRefundId(before, id, CaseOf(before, id), opnRefundId);
    }
  }

  /** Send a dispute's refund once no appeal can change it any more. */
  method FinalizeDisputeRefund(s: Store, id: Id, gateway: Option<Id>) returns (r: Outcome)
    requires id in s.disputes ==> id in s.bookings
    modifies s
    ensures Commits(FinalizeRefund(old(s.Tables()), id, gateway), old(s.Tables()), s.Tables(), r)
  {
    if id !in s.disputes {
      return Failure(NotFound);
    }
    if s.disputes[id].status == Open || s.bookings[id].escrow == Frozen {
      return Failure(NotFinal);
    }
    RefundBookingToGuest(s, id, gateway);
    r := Success(());
  }

  // ---- Report triage ----

  /** RECEIVED to IN_REVIEW; money still HELD or RELEASABLE is frozen with it. */
  method AcceptIntoReview(s: Store, report: Id) returns (r: Outcome)
    modifies s
    ensures Commits(Operations.AcceptIntoReview(old(s.Tables()), report), old(s.Tables()), s.Tables(), r)
  {
    var saved := s.Tables();
    if report !in s.reports {
      return Failure(NotFound);
    }
    var row := s.reports[report];
    if row.status != ReportStatus.Received {
      return Failure(WrongState);
    }
    if row.target.OnBooking? && row.target.bookingId in s.bookings {
      var id := row.target.bookingId;
      s.Opens(id);
      if s.bookings[id].escrow == Held || s.bookings[id].escrow == Releasable {
        var frozen := s.ApplyEvent(saved, id, CaseOf(saved, id), Freeze(HoldBookingReport), Some(report), None);
        if frozen.Failure? {
          s.Rollback(saved, id, CaseOf(saved, id));
          return Failure(frozen.error);
        }
      }
    }
    s.reports := s.reports[report := row.(status := InReview)];
    r := Success(());
  }

  method CloseReport(s: Store, report: Id, reason: string, outcome: ReportStatus) returns (r: Outcome)
    requires outcome.Resolved? || outcome.Dismissed?
    modifies s`reports
    ensures Commits(Operations.CloseReport(old(s.Tables()), report, reason, outcome), old(s.Tables()), s.Tables(), r)
  {
    if Trim(reason) == "" {
      return Failure(ReasonRequired);
    }
    if report !in s.reports {
      return Failure(NotFound);
    }
    var row := s.reports[report];
    if row.status != ReportStatus.Received && row.status != InReview {
      return Failure(WrongState);
    }
    s.reports := s.reports[report := row.(status := outcome)];
    r := Success(());
  }

  method UnlistFromReport(s: Store, report: Id) returns (r: Outcome)
    modifies s`reports
    ensures Commits(Operations.UnlistFromReport(old(s.Tables()), report), old(s.Tables()), s.Tables(), r)
  {
    if report !in s.reports {
      return Failure(NotFound);
    }
    if !s.reports[report].target.OnListing? {
      return Failure(NotListingReport);
    }
    s.reports := s.reports[report := s.reports[report].(status := InReview)];
    r := Success(());
  }

  /** Open a dispute in the guest's name and then, in a transaction of its own, put the
      report in review. The process may die between the two. */
  method EscalateToDispute(s: Store, report: Id, dispute: Id, dies: bool) returns (r: Outcome)
    modifies s
    ensures match Operations.EscalateToDispute(old(s.Tables()), report, dispute)
            case Failure(_) => Commits(Operations.EscalateToDispute(old(s.Tables()), report, dispute),
                old(s.Tables()), s.Tables(), r)
            case Success(disputed) =>
              if dies then s.Tables() == disputed
              else Commits(Operations.ReviewEscalated(disputed, report), disputed, s.Tables(), r)
  {
    if report !in s.reports {
      return Failure(NotFound);
    }
    var row := s.reports[report];
    if !row.target.OnBooking? || row.target.bookingId !in s.bookings {
      return Failure(NotBookingReport);
    }
    var id := row.target.bookingId;
    r := Transitions.OpenDispute(s, id, s.bookings[id].terms.guest, dispute);
    if r.Success? && !dies {
      s.reports := s.reports[report := row.(status := InReview)];
    }
  }

  method StrikeHostFromReport(s: Store, report: Id, reason: StrikeReason) returns (r: Outcome)
    modifies s
    ensures Commits(Operations.StrikeHostFromReport(old(s.Tables()), report, reason), old(s.Tables()), s.Tables(), r)
  {
    if report !in s.reports {
      return Failure(NotFound);
    }
    match s.reports[report].target {
      case OnBooking(id) =>
        if id !in s.bookings {
          return Failure(NotFound);
        }
        s.IssueStrike(Strike(s.bookings[id].terms.host, Some(id), reason));
      case OnListing(host) => s.IssueStrike(Strike(host, None, reason));
      case OnOther => return Failure(NotFound);
    }
    r := Success(());
  }
}
