/** Which refusal each transition gives, and in which order its guards are asked. Whatever
    fits none of the lines is accepted. */
module CaseRefusals {
  import opened Wrappers
  import opened Escrow
  import opened Bookings
  import opened CaseInvariants
  import opened CaseLaws

  predicate Refused(r: Result<Case, Error>, error: Error) {
    r == Failure(error)
  }

  lemma HostAnswerRefusals(c: Case, a: CaseAction)
    requires a.Accepting? || a.Declining?
    ensures var r, mine := CaseNext(c, a), c.row.terms.host == a.hostId;
            && (Refused(r, NotHost) <==> !mine)
            && (Refused(r, WrongState) <==> mine && !c.row.status.Requested?)
            && (Refused(r, DatesTaken) <==> mine && c.row.status.Requested? && a.Accepting? && a.datesTaken)
            && (r.Success? <==> mine && c.row.status.Requested? && !(a.Accepting? && a.datesTaken))
  {
  }

  lemma ExpiryRefusals(c: Case, now: int)
    requires CaseOk(c)
    ensures var r := c.Expire(now);
            var waiting := c.row.status.Requested? || c.row.status.AwaitingPayment?;
            && (Refused(r, WrongState) <==> !waiting)
            && (r.Failure? ==> r.error == WrongState || r.error == DeadlineNotPassed)
  {
  }

  lemma StayRefusals(c: Case, a: CaseAction)
    requires CaseOk(c) && (a.Confirming? || a.CheckingIn? || a.Completing?)
    ensures var r := CaseNext(c, a);
            var from := if a.Confirming? then AwaitingPayment else if a.CheckingIn? then Confirmed else CheckedIn;
            && (Refused(r, WrongState) <==> c.row.status != from)
            && (r.Failure? && r.error != WrongState ==> a.Confirming? && r.error == EscrowRefused(NonPositiveAmount))
  {
    if a.Confirming? {
      ConfirmAcceptedIff(c, a.event, a.code);
    } else if a.Completing? {
      CompleteAcceptedIff(c);
    }
  }

  lemma CancelRefusals(c: Case, a: CaseAction)
    requires CaseOk(c) && (a.CancellingAsGuest? || a.CancellingAsHost?)
    ensures var r := CaseNext(c, a);
            var mine := if a.CancellingAsGuest? then c.row.terms.guest == a.userId else c.row.terms.host == a.hostId;
            var before := a.CancellingAsGuest? && (c.row.status.Requested? || c.row.status.AwaitingPayment?);
            && (Refused(r, if a.CancellingAsGuest? then NotGuest else NotHost) <==> !mine)
            && (Refused(r, WrongState) <==> mine && !c.row.status.Confirmed? && !before)
            && (r.Success? <==> mine && (c.row.status.Confirmed? || before))
  {
    if a.CancellingAsGuest? {
      CancelByGuestAcceptedIff(c, a.userId, a.now);
    } else {
      CancelByHostAcceptedIff(c, a.hostId);
    }
  }

  lemma OpenDisputeRefusals(c: Case, userId: Id, disputeId: Id)
    requires CaseOk(c)
    ensures var r, mine := c.OpenDispute(userId, disputeId), c.row.terms.guest == userId;
            && (Refused(r, NotGuest) <==> !mine)
            && (Refused(r, WrongState) <==> mine && !c.row.status.CheckedIn?)
            && (Refused(r, EscrowRefused(IllegalTransition))
                <==> mine && c.row.status.CheckedIn? && c.row.escrow.Frozen?)
            && (r.Success? <==> mine && c.row.status.CheckedIn? && c.row.escrow.Held?)
  {
    OpenDisputeAcceptedIff(c, userId, disputeId);
  }

  lemma ResolutionRefusals(c: Case, admin: Id, res: Resolution)
    requires CaseOk(c)
    ensures var r := c.ResolveDispute(admin, res);
            (r.Failure? <==> !c.row.status.Disputed?) && (r.Failure? ==> r.error == WrongState)
    ensures var r := c.ResolveAppeal(admin, res);
            && (Refused(r, WrongState) <==> c.dispute.None?)
            && (Refused(r, AppealNotOpen) <==> c.dispute.Some? && !c.row.escrow.Frozen?)
            && (r.Success? <==> c.dispute.Some? && c.row.escrow.Frozen?)
  {
    ResolveDisputeAcceptedIff(c, admin, res);
    ResolveAppealAcceptedIff(c, admin, res);
  }

  /** An appeal: a decided dispute, the right party, its first appeal, money still there,
      and the refund not sent, asked in this order. */
  lemma AppealRefusals(c: Case, userId: Id, side: Side, now: int)
    requires CaseOk(c)
    ensures var r := c.AppealDispute(userId, side, now);
            var decided := c.dispute.Some? && !c.dispute.value.status.Open?;
            var mine := userId == if side.GuestSide? then c.row.terms.guest else c.row.terms.host;
            var spent := decided && AppealedAt(c.dispute.value, side).Some?;
            && (Refused(r, WrongState) <==> !decided)
            && (Refused(r, NotGuest) <==> decided && side.GuestSide? && !mine)
            && (Refused(r, NotHost) <==> decided && side.HostSide? && !mine)
            && (Refused(r, AlreadyAppealed) <==> decided && mine && spent)
            && (Refused(r, AppealNotOpen) <==> decided && mine && !spent && (!c.row.escrow.Releasable? || Sent(c)))
            && (r.Success? <==> decided && mine && !spent && c.row.escrow.Releasable? && !Sent(c))
  {
    AppealAcceptedIff(c, userId, side, now);
  }

  lemma PayOutRefusals(c: Case, admin: Id, account: Id, slipRef: string)
    requires CaseOk(c)
    ensures var r := c.PayOut(admin, account, slipRef);
            (r.Failure? <==> !c.row.escrow.Releasable?) && (r.Failure? ==> r.error == EscrowRefused(IllegalTransition))
  {
    PayOutAcceptedIff(c, admin, account, slipRef);
  }

  lemma FinalizeRefusals(c: Case, paid: bool, gateway: Option<Id>)
    ensures var r := c.FinalizeRefund(paid, gateway);
            && (Refused(r, NotFound) <==> c.dispute.None?)
            && (Refused(r, NotFinal) <==> c.dispute.Some? && (c.dispute.value.status.Open? || c.row.escrow.Frozen?))
            && (r.Success? <==> c.dispute.Some? && !c.dispute.value.status.Open? && !c.row.escrow.Frozen?)
  {
  }
}
