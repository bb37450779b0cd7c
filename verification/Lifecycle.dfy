/** The lifecycle diagram of the design document as an independent reference: bookings
    move along its arrows only, and every arrow can be taken. */
module Lifecycle {
  import opened Wrappers
  import opened Escrow
  import opened Codes
  import opened Bookings
  import opened CaseInvariants
  import opened CaseLaws
  import opened CaseHistories

  /** The arrows of the booking lifecycle. */
  predicate Arrow(from: BookingStatus, to: BookingStatus) {
    match from
    case Requested => to.AwaitingPayment? || to.Declined? || to.Expired? || to.CancelledByGuest?
    case AwaitingPayment => to.Confirmed? || to.Expired? || to.CancelledByGuest?
    case Confirmed => to.CheckedIn? || to.CancelledByGuest? || to.CancelledByHost?
    case CheckedIn => to.Completed? || to.Disputed?
    case Disputed => to.Completed? || to.CancelledByHost?
    case _ => false
  }

  /** The arrows of the money flow. */
  predicate MoneyArrow(from: EscrowState, to: EscrowState) {
    match from
    case Uncharged => to.Held?
    case Held => to.Releasable? || to.Frozen? || to.Reversed?
    case Releasable => to.Frozen? || to.Paid?
    case Frozen => to.Releasable? || to.Reversed?
    case _ => false
  }

  lemma DisputesFollowTheDiagram(c: Case, a: CaseAction, c': Case)
    requires Disputing(a) && CaseOk(c) && CaseNext(c, a) == Success(c') && c'.row.status != c.row.status
    ensures || Arrow(c.row.status, c'.row.status)
            || (a.ResolvingAppeal? && a.res.RefundAll? && Reopenable(c)
                && c.row.status.Completed? && c'.row.status.CancelledByHost?)
  {
  }

  /** Every accepted action follows the diagram. The one exception: resolving an appeal can
      move a COMPLETED booking, which the diagram calls final, to CANCELLED_BY_HOST, if
      its dispute is still reopenable; `CaseHistories.CompletedIsFinalIff` says that over
      whole runs this is exactly when it can happen. */
  lemma FollowsTheDiagram(c: Case, a: CaseAction, c': Case)
    requires CaseOk(c) && CaseNext(c, a) == Success(c') && c'.row.status != c.row.status
    ensures || Arrow(c.row.status, c'.row.status)
            || (a.ResolvingAppeal? && a.res.RefundAll? && Reopenable(c)
                && c.row.status.Completed? && c'.row.status.CancelledByHost?)
  {
    if Disputing(a) {
      DisputesFollowTheDiagram(c, a, c');
    }
  }

  lemma DisputesFollowTheMoneyFlow(c: Case, a: CaseAction, c': Case)
    requires a.OpeningDispute? || a.ResolvingDispute? || a.Appealing? || a.ResolvingAppeal?
    requires CaseNext(c, a) == Success(c') && c'.row.escrow != c.row.escrow
    ensures MoneyArrow(c.row.escrow, c'.row.escrow)
  {
  }

  /** The money of a booking moves along the arrows of the money flow only. */
  lemma FollowsTheMoneyFlow(c: Case, a: CaseAction, c': Case)
    requires CaseNext(c, a) == Success(c') && c'.row.escrow != c.row.escrow
    ensures MoneyArrow(c.row.escrow, c'.row.escrow)
  {
    if a.OpeningDispute? || a.ResolvingDispute? || a.Appealing? || a.ResolvingAppeal? {
      DisputesFollowTheMoneyFlow(c, a, c');
    }
  }

  /** Who may act: hosts on their own listings' bookings, guests on their own bookings,
      each side on its own appeal. */
  lemma OnlyThePartiesAct(c: Case, a: CaseAction)
    requires CaseNext(c, a).Success?
    ensures a.Accepting? || a.Declining? || a.CancellingAsHost? ==> a.hostId == c.row.terms.host
    ensures a.CancellingAsGuest? || a.OpeningDispute? ==> a.userId == c.row.terms.guest
    ensures a.Appealing? ==> a.userId == if a.side.GuestSide? then c.row.terms.guest else c.row.terms.host
  {
  }

  /** The action that takes an arrow. */
  function ActionFor(c: Case, to: BookingStatus): CaseAction {
    match to
    case AwaitingPayment => Accepting(c.row.terms.host, 0, false)
    case Declined => Declining(c.row.terms.host)
    case Expired =>
      if c.row.status.Requested? && c.row.timers.respondBy.Some? then Expiring(c.row.timers.respondBy.value)
      else if c.row.timers.payBy.Some? then Expiring(c.row.timers.payBy.value)
      else CheckingIn
    case CancelledByGuest => CancellingAsGuest(c.row.terms.guest, 0)
    case Confirmed => Confirming(c.id, Code(CalendarMonth(26, 6), 1))
    case CheckedIn => CheckingIn
    case CancelledByHost => if c.row.status.Disputed? then ResolvingDispute(c.id, RefundAll)
                            else CancellingAsHost(c.row.terms.host)
    case Completed => if c.row.status.Disputed? then ResolvingDispute(c.id, ReleaseAll) else Completing
    case Disputed => OpeningDispute(c.row.terms.guest, c.id)
    case Requested => CheckingIn
  }

  predicate Works(c: Case, a: CaseAction, to: BookingStatus) {
    CaseNext(c, a).Success? && CaseNext(c, a).value.row.status == to
  }

  lemma CancellingWorks(c: Case, to: BookingStatus)
    requires CaseOk(c) && Arrow(c.row.status, to) && (to.CancelledByGuest? || to.CancelledByHost?)
    ensures Works(c, ActionFor(c, to), to)
  {
    if to.CancelledByGuest? {
      CancelByGuestAcceptedIff(c, c.row.terms.guest, 0);
    } else if c.row.status.Disputed? {
      ResolveDisputeAcceptedIff(c, c.id, RefundAll);
    } else {
      CancelByHostAcceptedIff(c, c.row.terms.host);
    }
  }

  lemma CompletingWorks(c: Case)
    requires CaseOk(c) && Arrow(c.row.status, Completed)
    ensures Works(c, ActionFor(c, Completed), Completed)
  {
    if c.row.status.Disputed? {
      ResolveDisputeAcceptedIff(c, c.id, ReleaseAll);
    } else {
      CompleteAcceptedIff(c);
    }
  }

  /** What can keep an arrow from being taken: dates that the exclusion constraint has
      given away, a total of zero, which cannot be charged, and a stay whose money a
      report has frozen. */
  predicate Unblocked(c: Case, to: BookingStatus, datesTaken: bool) {
    && (to.AwaitingPayment? ==> !datesTaken)
    && (to.Confirmed? ==> 0 < c.row.terms.total)
    && (to.Disputed? ==> c.row.escrow.Held?)
  }

  /** Otherwise the action for an arrow is accepted and ends where the arrow does. */
  lemma ArrowWorks(c: Case, to: BookingStatus)
    requires CaseOk(c) && Arrow(c.row.status, to) && Unblocked(c, to, false)
    ensures Works(c, ActionFor(c, to), to)
  {
    match to
    case CancelledByGuest => CancellingWorks(c, to);
    case CancelledByHost => CancellingWorks(c, to);
    case Completed => CompletingWorks(c);
    case Confirmed => ConfirmAcceptedIff(c, c.id, Code(CalendarMonth(26, 6), 1));
    case Disputed => OpenDisputeAcceptedIff(c, c.row.terms.guest, c.id);
    case _ =>
  }

  /** The constraint's answer an acceptance is given. */
  predicate Sees(a: CaseAction, datesTaken: bool) {
    a.Accepting? ==> a.datesTaken == datesTaken
  }

  lemma ClosedArrow(c: Case, a: CaseAction, to: BookingStatus, datesTaken: bool)
    requires CaseOk(c) && Arrow(c.row.status, to) && Sees(a, datesTaken) && Works(c, a, to)
    ensures Unblocked(c, to, datesTaken)
  {
  }

  /** Every arrow of the diagram can be taken from every reachable booking at its tail,
      exactly with those three exceptions. */
  lemma ArrowCanBeTakenIff(c: Case, to: BookingStatus, datesTaken: bool)
    requires CaseOk(c) && Arrow(c.row.status, to)
    ensures (exists a :: Sees(a, datesTaken) && Works(c, a, to)) <==> Unblocked(c, to, datesTaken)
  {
    if Unblocked(c, to, datesTaken) {
      ArrowWorks(c, to);
      assert Sees(ActionFor(c, to), datesTaken);
    } else {
      forall a | Sees(a, datesTaken)
        ensures !Works(c, a, to)
      {
        if Works(c, a, to) {
          ClosedArrow(c, a, to, datesTaken);
        }
      }
    }
  }
}
