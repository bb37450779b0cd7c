/** What the accepted transitions of a booking leave behind, in money and in time. */
module CaseOutcomes {
  import opened Wrappers
  import opened Escrow
  import opened Refund
  import opened Bookings
  import opened CaseInvariants
  import opened CaseHistories
  import opened Sweeps

  // ---- Money ----

  /** A guest who cancels a confirmed booking gets the tier's percentage of the total,
      rounded up, and the host what is left, which may be nothing. */
  lemma GuestCancellation(c: Case, userId: Id, now: int, c': Case)
    requires CaseOk(c) && c.row.status.Confirmed? && c.CancelByGuest(userId, now) == Success(c')
    ensures var total, pct := c.row.terms.total, GuestRefundPct(c.row.terms.tier, DaysUntil(c.row.terms.checkIn, now));
            var refund := c'.PriorRefund();
            && total * pct <= 100 * refund < total * pct + 100 && 0 <= refund <= total
            && Fold(c'.entries, Refunded) == refund && Obligation(c'.entries) == total - refund
            && c'.row.status.CancelledByGuest? && c'.row.escrow == (if refund < total then Releasable else Reversed)
  {
    FullPot(c);
    var amounts := ComputeRefund(c.row.terms.total, c.row.terms.tier, DaysUntil(c.row.terms.checkIn, now));
    var b := c.WithStatus(CancelledByGuest).RecordRefund(amounts).value;
    SettleKeepsMoney(c, b, amounts.refund, RefundGuestTier, None, c');
    AgreementMeansInvariant(c'.CurrentPosition(), c'.entries);
  }

  /** Two whole weeks ahead everything goes back, whatever the tier; under the strict
      tier nothing does from six days on. */
  lemma GuestCancellationAtTheEdges(c: Case, userId: Id, now: int, c': Case)
    requires CaseOk(c) && c.row.status.Confirmed? && c.CancelByGuest(userId, now) == Success(c')
    ensures now + 1209600000 <= c.row.terms.checkIn ==> c'.PriorRefund() == c.row.terms.total && c'.row.escrow.Reversed?
    ensures c.row.terms.tier.Strict? && c.row.terms.checkIn < now + 604800000
            ==> c'.PriorRefund() == 0 && c'.row.escrow.Releasable?
  {
  }

  /** The guest gets this percentage of the total, a fractional satang rounded up, and
      what is left stays owed to the host. */
  predicate RefundsPct(c: Case, c': Case, pct: int) {
    var refund := c'.PriorRefund();
    && c.row.terms.total * pct <= 100 * refund < c.row.terms.total * pct + 100
    && Obligation(c'.entries) == c.row.terms.total - refund && c'.row.status.CancelledByGuest?
  }

  /** The tier table, by the lead time in milliseconds between the cancellation and the
      first day of the stay, which may already have begun. */
  lemma CancellationByLeadTime(c: Case, userId: Id, now: int, c': Case)
    requires CaseOk(c) && c.row.status.Confirmed? && c.CancelByGuest(userId, now) == Success(c')
    ensures var tier, lead := c.row.terms.tier, c.row.terms.checkIn - now;
            && (tier.Flexible? ==> RefundsPct(c, c', if lead >= 3 * 86400000 then 100 else 50))
            && (tier.Moderate? ==>
                RefundsPct(c, c', if lead >= 7 * 86400000 then 100 else if lead >= 3 * 86400000 then 50 else 0))
            && (tier.Strict? ==>
                RefundsPct(c, c', if lead >= 14 * 86400000 then 100 else if lead >= 7 * 86400000 then 50 else 0))
  {
    GuestCancellation(c, userId, now, c');
    TierTable(c.row.terms.tier, c.row.terms.checkIn, now);
  }

  lemma TierTable(tier: CancellationTier, checkIn: int, now: int)
    ensures var pct, lead := GuestRefundPct(tier, DaysUntil(checkIn, now)), checkIn - now;
            && (tier.Flexible? ==> pct == if lead >= 3 * 86400000 then 100 else 50)
            && (tier.Moderate? ==> pct == if lead >= 7 * 86400000 then 100 else if lead >= 3 * 86400000 then 50 else 0)
            && (tier.Strict? ==> pct == if lead >= 14 * 86400000 then 100 else if lead >= 7 * 86400000 then 50 else 0)
  {
  }

  /** A host who cancels leaves the guest whole and keeps nothing. */
  lemma HostCancellation(c: Case, hostId: Id, c': Case)
    requires CaseOk(c) && c.CancelByHost(hostId) == Success(c')
    ensures c'.PriorRefund() == c.row.terms.total == Fold(c'.entries, Refunded) && Obligation(c'.entries) == 0
    ensures c'.row.escrow.Reversed? && c'.row.status.CancelledByHost?
  {
  }

  /** The pot a decision divides is what is frozen. */
  lemma DecidedPot(c: Case, a: CaseAction)
    requires a.ResolvingDispute? || a.ResolvingAppeal?
    requires CaseOk(c) && CaseNext(c, a).Success?
    ensures c.row.escrow.Frozen? && 0 < c.CurrentPosition().amount
    ensures a.ResolvingDispute? ==> c.CurrentPosition().amount == c.row.terms.total
  {
  }

  /** A decision on a dispute or an appeal divides the frozen pot: the guest's
      percentage rounded up, the rest released, the status as decided. */
  lemma Decision(c: Case, a: CaseAction, c': Case)
    requires a.ResolvingDispute? || a.ResolvingAppeal?
    requires CaseOk(c) && CaseNext(c, a) == Success(c')
    ensures var pot, slice := c.CurrentPosition().amount, c'.PriorRefund() - c.PriorRefund();
            && 0 < pot && slice == RefundForPct(pot, DecidedPct(a.res)) && 0 <= slice <= pot
            && Obligation(c'.entries) == pot - slice
    ensures c'.row.status == StatusAfter(a.res)
  {
    CaseNextKeeps(c, a, c');
    DecidedPot(c, a);
    DecisionEffect(c, a, c');
    SliceFits(c.CurrentPosition().amount, a.res);
    DecidedStatus(c, a, c');
    DecisionKeepsTheRest(c, c');
  }

  lemma DecidedStatus(c: Case, a: CaseAction, c': Case)
    requires a.ResolvingDispute? || a.ResolvingAppeal?
    requires CaseNext(c, a) == Success(c')
    ensures c'.row.status == StatusAfter(a.res) && c'.payout == c.payout
  {
  }

  /** Whatever leaves the pot short of a payout goes to the guest. */
  lemma DecisionKeepsTheRest(c: Case, c': Case)
    requires CaseOk(c) && CaseOk(c') && c.row.terms == c'.row.terms && c.row.escrow.Frozen?
    requires c'.row.status.Completed? || c'.row.status.CancelledByHost?
    requires c'.payout.None?
    ensures Obligation(c'.entries) == Obligation(c.entries) - (c'.PriorRefund() - c.PriorRefund())
  {
  }

  // ---- Time ----

  /** A request nobody accepts expires with the first tick later than twelve hours. */
  lemma RequestDeadline(id: Id, terms: Terms, made: int, now: int)
    ensures Tick(NewCase(id, RequestRow(terms, made)), now).row.status
            == if made + 43200000 < now then BookingStatus.Expired else Requested
  {
  }

  /** An instant hold nobody pays expires with the first tick later than one hour. */
  lemma InstantDeadline(id: Id, terms: Terms, made: int, now: int)
    ensures Tick(NewCase(id, InstantRow(terms, made)), now).row.status
            == if made + 3600000 < now then BookingStatus.Expired else AwaitingPayment
  {
  }

  /** An accepted request nobody pays expires with the first tick later than twelve
      hours after the host's answer. */
  lemma AcceptedDeadline(c: Case, hostId: Id, answered: int, c': Case, now: int)
    requires c.Accept(hostId, answered, false) == Success(c')
    ensures Tick(c', now).row.status == if answered + 43200000 < now then BookingStatus.Expired else AwaitingPayment
  {
  }

  /** The payment reminder: stamped once, with the first tick in the last two hours before
      the deadline, the deadline itself excluded. */
  lemma ReminderByTheClock(c: Case, now: int)
    requires CaseOk(c) && c.row.status.AwaitingPayment?
    ensures var payBy, before := c.row.timers.payBy.value, c.row.timers.remindedAt;
            Tick(c, now).row.timers
            == c.row.timers.(remindedAt := if before.None? && now < payBy <= now + 7200000 then Some(now) else before)
  {
    TickWhileAwaiting(c, now);
  }

  /** A stay is checked in from eight hours into its first day (15:00 in Bangkok) and
      completed from four hours into its last (11:00), in one tick if both are due; the
      money is released with it unless a report has frozen it. */
  lemma StayByTheClock(c: Case, now: int)
    requires CaseOk(c) && c.row.status.Confirmed?
    ensures var after := Tick(c, now);
            var begun, over := c.row.terms.checkIn + 28800000 <= now, c.row.terms.checkOut + 14400000 <= now;
            && after.row.status == (if begun && over then Completed else if begun then CheckedIn else Confirmed)
            && after.row.escrow == (if begun && over && c.row.escrow.Held? then Releasable else c.row.escrow)
  {
  }

  /** The transition itself may expire a booking at its deadline; the sweep waits until
      the deadline is past. */
  lemma ExpireAcceptedIff(c: Case, now: int)
    requires CaseOk(c)
    ensures c.Expire(now).Success? <==>
            || (c.row.status.Requested? && c.row.timers.respondBy.value <= now)
            || (c.row.status.AwaitingPayment? && c.row.timers.payBy.value <= now)
  {
  }
}
