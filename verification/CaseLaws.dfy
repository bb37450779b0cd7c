/** What follows for one booking, over every run: exactly when each transition is
    accepted, conservation through disputes and appeals, the payout amount, and the
    frozen trap. */
module CaseLaws {
  import opened Wrappers
  import opened Escrow
  import opened Codes
  import opened Bookings
  import opened CaseInvariants

  // ---- Acceptance: behind a passed guard no escrow move is refused ----

  lemma ConfirmAcceptedIff(c: Case, event: Id, code: Code)
    requires CaseOk(c)
    ensures c.Confirm(event, code).Success? <==> c.row.status.AwaitingPayment? && 0 < c.row.terms.total
  {
  }

  lemma CompleteAcceptedIff(c: Case)
    requires CaseOk(c)
    ensures c.Complete().Success? <==> c.row.status.CheckedIn?
  {
  }

  lemma CancelByGuestAcceptedIff(c: Case, userId: Id, now: int)
    requires CaseOk(c)
    ensures c.CancelByGuest(userId, now).Success? <==>
            && c.row.terms.guest == userId
            && (c.row.status.Requested? || c.row.status.AwaitingPayment? || c.row.status.Confirmed?)
  {
  }

  lemma CancelByHostAcceptedIff(c: Case, hostId: Id)
    requires CaseOk(c)
    ensures c.CancelByHost(hostId).Success? <==> c.row.terms.host == hostId && c.row.status.Confirmed?
  {
  }

  /** The one exception: on a stay a report has already frozen, the dispute's own
      freeze is refused and no dispute is opened. */
  lemma OpenDisputeAcceptedIff(c: Case, userId: Id, disputeId: Id)
    requires CaseOk(c)
    ensures c.OpenDispute(userId, disputeId).Success? <==>
            c.row.terms.guest == userId && c.row.status.CheckedIn? && c.row.escrow.Held?
    ensures c.row.terms.guest == userId && c.row.status.CheckedIn? && !c.row.escrow.Held? ==>
            c.OpenDispute(userId, disputeId) == Failure(EscrowRefused(IllegalTransition))
  {
  }

  lemma ResolveDisputeAcceptedIff(c: Case, admin: Id, res: Resolution)
    requires CaseOk(c)
    ensures c.ResolveDispute(admin, res).Success? <==> c.row.status.Disputed?
  {
  }

  predicate Sent(c: Case) {
    c.refund.Some? && c.refund.value.opnRefundId.Some?
  }

  function AppealedAt(d: Dispute, side: Side): Option<int> {
    if side.GuestSide? then d.guestAppealedAt else d.hostAppealedAt
  }

  lemma AppealAcceptedIff(c: Case, userId: Id, side: Side, now: int)
    requires CaseOk(c)
    ensures c.AppealDispute(userId, side, now).Success? <==>
            && c.dispute.Some? && !c.dispute.value.status.Open?
            && userId == (if side.GuestSide? then c.row.terms.guest else c.row.terms.host)
            && AppealedAt(c.dispute.value, side).None?
            && c.row.escrow.Releasable? && !Sent(c)
  {
  }

  lemma ResolveAppealAcceptedIff(c: Case, admin: Id, res: Resolution)
    requires CaseOk(c)
    ensures c.ResolveAppeal(admin, res).Success? <==> c.dispute.Some? && c.row.escrow.Frozen?
  {
  }

  lemma ReportFreezeNeverRefused(c: Case, reportId: Id)
    requires CaseOk(c)
    ensures c.ReportFreeze(reportId).Success?
  {
  }

  lemma PayOutAcceptedIff(c: Case, admin: Id, account: Id, slipRef: string)
    requires CaseOk(c)
    ensures c.PayOut(admin, account, slipRef).Success? <==> c.row.escrow.Releasable?
  {
  }

  // ---- Money ----

  /** Conservation: for a charged booking, received = total = refunded + in escrow +
      paid out; the refund row is the refunded total, and the shares it retains sum
      to what is in escrow or paid out. */
  lemma MoneyIsConserved(c: Case)
    requires CaseOk(c) && c.entries != []
    ensures Fold(c.entries, Received) == c.row.terms.total
    ensures c.row.terms.total == Fold(c.entries, Refunded) + Obligation(c.entries) + Fold(c.entries, PaidOut)
    ensures c.PriorRefund() == Fold(c.entries, Refunded)
    ensures c.refund.Some? ==>
            var b := c.refund.value.amounts;
            b.retainedHost + b.retainedPlatform == Obligation(c.entries) + Fold(c.entries, PaidOut)
  {
  }

  /** The amount recorded for the host against the money the PAID move discharges. */
  lemma PayoutAgainstLedger(c: Case, admin: Id, account: Id, slipRef: string, c': Case)
    requires CaseOk(c) && c.PayOut(admin, account, slipRef) == Success(c')
    ensures c'.payout.Some? && |c'.entries| == |c.entries| + 1
    ensures var paidMove := c'.entries[|c.entries|].move;
            var host := c'.payout.value.hostAmount;
            var refunded := Fold(c.entries, Refunded);
            && paidMove.to.Paid? && paidMove.amount == c.row.terms.total - refunded
            && (host + c.row.terms.commission == paidMove.amount <==> refunded == 0)
            && (host <= paidMove.amount <==> refunded <= c.row.terms.commission)
  {
  }

  // ---- The frozen trap ----

  /** A frozen booking with no dispute that can no longer be cancelled. */
  predicate Trapped(c: Case) {
    c.row.escrow.Frozen? && c.dispute.None? && !c.row.status.Confirmed?
  }

  lemma TrappedStep(c: Case, a: CaseAction, c': Case)
    requires CaseOk(c) && Trapped(c) && CaseNext(c, a) == Success(c')
    ensures Trapped(c') && c'.entries == c.entries && c'.refund.Some? == c.refund.Some?
  {
  }

  lemma {:induction false} TrappedForever(c: Case, actions: seq<CaseAction>)
    requires CaseOk(c) && Trapped(c)
    ensures Trapped(CaseRun(c, actions)) && CaseRun(c, actions).entries == c.entries
  {
    if actions != [] {
      var front, last := actions[..|actions| - 1], actions[|actions| - 1];
      TrappedForever(c, front);
      CaseRunKeeps(c, front);
      if CaseNext(CaseRun(c, front), last).Success? {
        TrappedStep(CaseRun(c, front), last, CaseRun(c, actions));
      }
    }
  }

  lemma OneStepRun(c: Case, a: CaseAction)
    ensures CaseRun(c, [a]) == CaseStep(c, a)
  {
  }

  lemma EscapeFromFrozen(c: Case) returns (a: CaseAction)
    requires CaseOk(c) && c.row.escrow.Frozen? && !Trapped(c)
    ensures !CaseRun(c, [a]).row.escrow.Frozen?
  {
    if c.dispute.Some? {
      a := ResolvingAppeal(0, ReleaseAll);
      ResolveAppealAcceptedIff(c, 0, ReleaseAll);
      ResolveAppealKeeps(c, 0, ReleaseAll, CaseStep(c, a));
      LedgerIsOk(c);
      SettleState(c, a);
    } else {
      a := CancellingAsHost(c.row.terms.host);
      CancelByHostAcceptedIff(c, c.row.terms.host);
      CancelByHostKeeps(c, c.row.terms.host, CaseStep(c, a));
    }
    OneStepRun(c, a);
  }

  lemma SettleState(c: Case, a: CaseAction)
    requires CaseOk(c) && c.row.escrow.Frozen? && a.ResolvingAppeal? && CaseNext(c, a).Success?
    ensures !CaseStep(c, a).row.escrow.Frozen?
  {
  }

  /** Frozen money can still leave escrow exactly when the booking is CONFIRMED or
      carries a dispute. A report freeze on a stay that is checked in, completed or
      cancelled by the guest, with no dispute, can never be lifted. */
  lemma FrozenMoneyEscapesIff(c: Case)
    requires CaseOk(c) && c.row.escrow.Frozen?
    ensures (exists actions :: !CaseRun(c, actions).row.escrow.Frozen?) <==> c.row.status.Confirmed? || c.dispute.Some?
  {
    if Trapped(c) {
      forall actions
        ensures CaseRun(c, actions).row.escrow.Frozen?
      {
        TrappedForever(c, actions);
      }
    } else {
      var a := EscapeFromFrozen(c);
      assert !CaseRun(c, [a]).row.escrow.Frozen?;
    }
  }
}
