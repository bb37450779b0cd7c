/** Operations that read first and write later, with nothing in the write to guard it:
    the four status changes made outside a transaction, and the freeze behind a report.
    What the late write does to whatever the booking has become in between. */
module StaleReads {
  import opened Wrappers
  import opened Money
  import opened Escrow
  import opened Codes
  import opened Bookings
  import opened CaseInvariants
  import opened CaseLaws
  import opened CaseOutcomes
  import opened CaseExamples

  // ---- A late status write ----

  predicate WritesBlindly(a: CaseAction) {
    a.Accepting? || a.Declining? || a.Expiring? || a.CheckingIn?
  }

  /** The write alone, on the row as it is now. */
  function Written(c: Case, a: CaseAction): Case
    requires WritesBlindly(a)
  {
    match a
    case Accepting(_, now, _) =>
      var timers := c.row.timers.(payBy := Some(now + PAY_HOURS_REQUEST * HOUR));
      c.(row := c.row.(status := AwaitingPayment, timers := timers))
    case Declining(_) => c.WithStatus(Declined)
    case Expiring(_) => c.WithStatus(BookingStatus.Expired)
    case CheckingIn => c.WithStatus(CheckedIn)
  }

  /** With nothing in between, read and write are the transition. */
  lemma WrittenAtOnce(c: Case, a: CaseAction)
    requires WritesBlindly(a) && CaseNext(c, a).Success?
    ensures CaseNext(c, a) == Success(Written(c, a))
  {
  }

  /** A late write keeps the books in agreement exactly when it lands on money that fits
      the status: none charged, or, for a check-in, all of it still held and undisputed. */
  lemma LateWriteKeepsIff(c: Case, a: CaseAction)
    requires CaseOk(c) && WritesBlindly(a)
    ensures CaseOk(Written(c, a)) <==>
            if a.CheckingIn? then (c.row.escrow.Held? || c.row.escrow.Frozen?) && c.dispute.None? && c.refund.None?
            else c.row.escrow.Uncharged?
  {
    var w := Written(c, a);
    assert w.entries == c.entries && w.CurrentPosition() == c.CurrentPosition();
    assert EntriesOk(w) && MoneyOk(w);
  }

  /** Nothing can be charged on a booking that costs nothing. */
  lemma UnchargedStep(c: Case, a: CaseAction, c': Case)
    requires CaseOk(c) && c.row.escrow.Uncharged? && c.row.terms.total <= 0 && CaseNext(c, a) == Success(c')
    ensures c'.row.escrow.Uncharged? && c'.row.terms == c.row.terms
  {
    if a.Confirming? {
      ConfirmAcceptedIff(c, a.event, a.code);
    }
  }

  lemma {:induction false} UnchargedForever(c: Case, actions: seq<CaseAction>)
    requires CaseOk(c) && c.row.escrow.Uncharged? && c.row.terms.total <= 0
    ensures CaseRun(c, actions).row.escrow.Uncharged? && CaseRun(c, actions).row.terms == c.row.terms
  {
    if actions != [] {
      var front, last := actions[..|actions| - 1], actions[|actions| - 1];
      UnchargedForever(c, front);
      CaseRunKeeps(c, front);
      if CaseNext(CaseRun(c, front), last).Success? {
        UnchargedStep(CaseRun(c, front), last, CaseRun(c, actions));
      }
    }
  }

  /** From the read to a state in which the write does harm. */
  lemma Overtake(c: Case, a: CaseAction) returns (actions: seq<CaseAction>)
    requires CaseOk(c) && WritesBlindly(a) && CaseNext(c, a).Success?
    requires a.CheckingIn? || 0 < c.row.terms.total
    ensures CaseOk(CaseRun(c, actions)) && !CaseOk(Written(CaseRun(c, actions), a))
  {
    if a.CheckingIn? {
      actions := [CancellingAsHost(c.row.terms.host)];
      OneStepRun(c, CancellingAsHost(c.row.terms.host));
      CancelByHostAcceptedIff(c, c.row.terms.host);
      HostCancellation(c, c.row.terms.host, CaseRun(c, actions));
    } else {
      actions := PayFor(c);
    }
    CaseRunKeeps(c, actions);
    LateWriteKeepsIff(CaseRun(c, actions), a);
  }

  /** Accept if need be, and pay. */
  lemma PayFor(c: Case) returns (actions: seq<CaseAction>)
    requires CaseOk(c) && (c.row.status.Requested? || c.row.status.AwaitingPayment?) && 0 < c.row.terms.total
    ensures CaseRun(c, actions).row.escrow.Held?
  {
    var paying := Confirming(0, Code(CalendarMonth(0, 1), 1));
    actions := [];
    if c.row.status.Requested? {
      actions := [Accepting(c.row.terms.host, 0, false)];
      OneStepRun(c, Accepting(c.row.terms.host, 0, false));
    }
    CaseRunKeeps(c, actions);
    ConfirmAcceptedIff(CaseRun(c, actions), paying.event, paying.code);
    RunSnoc(c, actions, paying);
    ConfirmedIsHeld(CaseRun(c, actions), paying.event, paying.code, CaseStep(CaseRun(c, actions), paying));
    actions := actions + [paying];
  }

  /** Between a passed check and its write, something can happen that makes the write do
      harm: always for a check-in, and for the others exactly when the booking costs
      anything. */
  lemma LateWriteMayHarmIff(c: Case, a: CaseAction)
    requires CaseOk(c) && WritesBlindly(a) && CaseNext(c, a).Success?
    ensures (exists actions :: !CaseOk(Written(CaseRun(c, actions), a))) <==> a.CheckingIn? || 0 < c.row.terms.total
  {
    if a.CheckingIn? || 0 < c.row.terms.total {
      var actions := Overtake(c, a);
    } else {
      forall actions
        ensures CaseOk(Written(CaseRun(c, actions), a))
      {
        UnchargedForever(c, actions);
        CaseRunKeeps(c, actions);
        LateWriteKeepsIff(CaseRun(c, actions), a);
      }
    }
  }

  // ---- Expired with the guest's money in escrow ----

  predicate Stuck(c: Case) {
    c.row.status.Expired? && c.dispute.None? && (c.row.escrow.Held? || c.row.escrow.Frozen?)
  }

  lemma StuckStep(c: Case, a: CaseAction, c': Case)
    requires Stuck(c) && CaseNext(c, a) == Success(c')
    ensures Stuck(c') && c'.refund == c.refund && c'.payout == c.payout
  {
  }

  lemma {:induction false} StuckForever(c: Case, actions: seq<CaseAction>)
    requires Stuck(c)
    ensures Stuck(CaseRun(c, actions))
  {
    if actions != [] {
      var front, last := actions[..|actions| - 1], actions[|actions| - 1];
      StuckForever(c, front);
      if CaseNext(CaseRun(c, front), last).Success? {
        StuckStep(CaseRun(c, front), last, CaseRun(c, actions));
      }
    }
  }

  /** The sweep reads an unpaid hold past its hour, the webhook confirms it, the sweep
      writes: EXPIRED with the whole total HELD, which no action ever moves out again. */
  lemma ExpiredWithHeldMoney(id: Id, terms: Terms, event: Id, code: Code, now: int)
    requires FitsColumn(terms.total) && 0 < terms.total && HOUR <= now
    ensures var c := NewHold(id, terms);
            var late := Written(CaseRun(c, [Confirming(event, code)]), Expiring(now));
            && CaseNext(c, Expiring(now)).Success? && Stuck(late) && late.row.escrow.Held? && !CaseOk(late)
            && forall rest :: Stuck(CaseRun(late, rest))
  {
    var c := NewHold(id, terms);
    var late := Written(CaseRun(c, [Confirming(event, code)]), Expiring(now));
    NewCaseIsOk(id, InstantRow(terms, 0));
    ConfirmAcceptedIff(c, event, code);
    OneStepRun(c, Confirming(event, code));
    ConfirmedIsHeld(c, event, code, CaseStep(c, Confirming(event, code)));
    ConfirmedIsUndisputed(c, event, code, CaseStep(c, Confirming(event, code)));
    CaseRunKeeps(c, [Confirming(event, code)]);
    LateWriteKeepsIff(CaseRun(c, [Confirming(event, code)]), Expiring(now));
    forall rest
      ensures Stuck(CaseRun(late, rest))
    {
      StuckForever(late, rest);
    }
  }

  lemma ConfirmedIsUndisputed(c: Case, event: Id, code: Code, c': Case)
    requires c.Confirm(event, code) == Success(c')
    ensures c'.dispute == c.dispute
  {
  }

  // ---- A late freeze ----

  predicate Freezable(c: Case) {
    c.row.escrow.Held? || c.row.escrow.Releasable?
  }

  /** Taking a report into review freezes if the escrow state read beforehand said so. */
  function LateFreeze(c: Case, saw: bool, report: Id): Result<Case, Error> {
    if saw then c.ApplyEvent(Freeze(HoldBookingReport), Some(report), None) else Success(c)
  }

  /** The acceptance is refused exactly when the money was freezable at the read and is not
      any more; it leaves freezable money unfrozen exactly when that was not so at the read
      and is now; otherwise it is the freeze of one step. The invariant is kept. */
  lemma LateFreezeOutcome(c: Case, saw: bool, report: Id)
    requires CaseOk(c)
    ensures LateFreeze(c, saw, report).Failure? <==> saw && !Freezable(c)
    ensures LateFreeze(c, saw, report).Success? ==>
            var c' := LateFreeze(c, saw, report).value;
            && CaseOk(c') && (Freezable(c') <==> !saw && Freezable(c))
            && (saw == Freezable(c) ==> c.ReportFreeze(report) == Success(c'))
  {
    ReportFreezeNeverRefused(c, report);
    if Freezable(c) {
      ReportFreezeKeeps(c, report, c.ReportFreeze(report).value);
      FreezeKeepsMoney(c, c, HoldBookingReport, Some(report), c.ReportFreeze(report).value);
    } else {
      NothingToFreeze(c, report);
    }
  }

  lemma NothingToFreeze(c: Case, report: Id)
    requires CaseOk(c) && !Freezable(c)
    ensures c.ApplyEvent(Freeze(HoldBookingReport), Some(report), None).Failure?
  {
  }

  /** What was freezable at the read can always be frozen by someone else before the
      write. */
  lemma LateFreezeMayBeRefusedIff(c: Case, report: Id)
    requires CaseOk(c)
    ensures (exists actions :: LateFreeze(CaseRun(c, actions), Freezable(c), report).Failure?) <==> Freezable(c)
  {
    if Freezable(c) {
      var frozen := CaseStep(c, FreezingForReport(report));
      OneStepRun(c, FreezingForReport(report));
      ReportFreezeNeverRefused(c, report);
      ReportFreezeKeeps(c, report, frozen);
      LateFreezeOutcome(c, true, report);
      LateFreezeOutcome(frozen, true, report);
    }
  }

  /** Two overlapping acceptances of one report both find the money HELD; the guest cancels
      in between; the second freezes what the cancellation has released, for good. */
  lemma OneReportFreezesTwice(id: Id, terms: Terms, event: Id, code: Code, report: Id) returns (once: Case, twice: Case)
    requires FitsColumn(terms.total) && 0 < terms.total && terms.tier.Strict?
    ensures var paid := CaseRun(NewHold(id, terms), [Confirming(event, code)]);
            var released := CaseStep(once, CancellingAsGuest(terms.guest, terms.checkIn));
            && LateFreeze(paid, Freezable(paid), report) == Success(once) && once.row.escrow.Frozen?
            && released.row.escrow.Releasable?
            && LateFreeze(released, Freezable(paid), report) == Success(twice) && Trapped(twice)
  {
    var c := NewHold(id, terms);
    var paid := CaseRun(c, [Confirming(event, code)]);
    NewCaseIsOk(id, InstantRow(terms, 0));
    ConfirmAcceptedIff(c, event, code);
    OneStepRun(c, Confirming(event, code));
    ConfirmedIsHeld(c, event, code, paid);
    CaseRunKeeps(c, [Confirming(event, code)]);
    LateFreezeOutcome(paid, true, report);
    once := LateFreeze(paid, true, report).value;
    FreezeKeepsMoney(paid, paid, HoldBookingReport, Some(report), once);
    CancelByGuestAcceptedIff(once, terms.guest, terms.checkIn);
    var released := CaseStep(once, CancellingAsGuest(terms.guest, terms.checkIn));
    CancelByGuestKeeps(once, terms.guest, terms.checkIn, released);
    GuestCancellationAtTheEdges(once, terms.guest, terms.checkIn, released);
    LateFreezeOutcome(released, true, report);
    twice := LateFreeze(released, true, report).value;
    FreezeKeepsMoney(released, released, HoldBookingReport, Some(report), twice);
    CancelledStatus(once, terms.guest, terms.checkIn, released);
  }

  lemma CancelledStatus(c: Case, userId: Id, now: int, c': Case)
    requires c.CancelByGuest(userId, now) == Success(c')
    ensures c'.row.status.CancelledByGuest? && c'.dispute == c.dispute
  {
  }
}
