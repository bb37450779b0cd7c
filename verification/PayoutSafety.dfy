/** Payouts over whole runs: a booking is paid out once, and a hold stays until it is
    released. `PayingRuns` says when a hold keeps a booking from being paid out. */
module PayoutSafety {
  import opened Wrappers
  import opened Codes
  import opened Bookings
  import opened Database
  import opened Operations
  import opened Effects
  import opened Runs

  /** Only a payout writes a payout row, and only where there is none. */
  lemma PayoutWrittenOnce(c: Case, a: CaseAction, c': Case)
    requires CaseNext(c, a) == Success(c')
    ensures !a.PayingOut? ==> c'.payout == c.payout
    ensures a.PayingOut? ==> c.payout.None? && c'.payout.Some?
  {
  }

  lemma {:induction false} CasePayoutIsFinal(c: Case, actions: seq<CaseAction>)
    requires c.payout.Some?
    ensures CaseRun(c, actions).payout == c.payout
  {
    if actions != [] {
      var front, last := actions[..|actions| - 1], actions[|actions| - 1];
      CasePayoutIsFinal(c, front);
      if CaseNext(CaseRun(c, front), last).Success? {
        PayoutWrittenOnce(CaseRun(c, front), last, CaseRun(c, actions));
      }
    }
  }

  /** A payout row, once written, stays as it is in every run. */
  lemma PaidOutOnce(db: Db, actions: seq<Action>, id: Id)
    requires DbOk(db) && id in db.payouts
    ensures id in Run(db, actions).payouts && Run(db, actions).payouts[id] == db.payouts[id]
  {
    RunProjects(db, actions, id);
    CasePayoutIsFinal(CaseOf(db, id), Projected(db, actions, id));
  }

  // ---- Holds ----

  predicate CoveredBy(db: Db, hold: Id, id: Id) {
    id in db.bookings && hold in db.holds && Covers(db.holds[hold], id, db.bookings[id].terms.host)
  }

  lemma ActKeepsHolds(db: Db, id: Id, a: CaseAction, after: Db)
    requires Act(db, id, a) == Success(after)
    ensures after.holds == db.holds
  {
  }

  lemma ReportKeepsHolds(db: Db, action: Action, after: Db)
    requires action.AcceptingReport? || action.EscalatingReport?
    requires Next(db, action) == Success(after)
    ensures after.holds == db.holds
  {
    if ReportsBooking(db, action.report) {
      var effect := EffectOf(db, action);
      BookingReportActs(db, action, after);
      ActKeepsHolds(db, effect.id, effect.a, Act(db, effect.id, effect.a).value);
    } else {
      OtherReportsKeepHolds(db, action, after);
    }
  }

  lemma OtherReportsKeepHolds(db: Db, action: Action, after: Db)
    requires action.AcceptingReport? || action.EscalatingReport?
    requires !ReportsBooking(db, action.report) && Next(db, action) == Success(after)
    ensures after.holds == db.holds
  {
  }

  lemma ConfirmKeepsHolds(db: Db, id: Id, event: Id, month: YearMonth, after: Db)
    requires ConfirmFromWebhook(db, id, event, month) == Success(after)
    ensures after.holds == db.holds
  {
  }

  lemma MoveKeepsHolds(db: Db, action: Action, after: Db)
    requires action.Acting? || action.SendingRefund? || action.FinalizingRefund? || action.MarkingPaid?
    requires Next(db, action) == Success(after)
    ensures after.holds == db.holds
  {
    match action
    case Acting(id, a) => ActKeepsHolds(db, id, a, after);
    case SendingRefund(id, gateway) => ActKeepsHolds(db, id, RefundingCancelled(HasPaid(db, id), gateway), after);
    case FinalizingRefund(id, gateway) => ActKeepsHolds(db, id, Finalizing(HasPaid(db, id), gateway), after);
    case MarkingPaid(admin, id, slipRef, _) =>
      var account := NewestAccount(db.accounts, db.bookings[id].terms.host).value;
      ActKeepsHolds(db, id, PayingOut(admin, account.id, Trim(slipRef)), after);
  }

  lemma RowKeepsHolds(db: Db, action: Action, after: Db)
    requires || action.Requesting? || action.HoldingInstantly? || WritesPayments(action) || action.AddingAccount?
    requires Next(db, action) == Success(after)
    ensures after.holds == db.holds
  {
  }

  lemma TriageKeepsHolds(db: Db, action: Action, after: Db)
    requires OnReports(action) && Next(db, action) == Success(after)
    ensures after.holds == db.holds
  {
    if IsClosing(action) {
      ClosingBeside(db, action, after);
    } else if IsFiling(action) {
      FilingBeside(db, action, after);
    } else if action.StrikingFromReport? {
      StrikeBeside(db, action.report, action.strike, after);
    } else {
      ReviewsBeside(db, action, after);
    }
  }

  /** Holds are only touched by the two hold operations. */
  lemma OtherActionsKeepHolds(db: Db, action: Action, after: Db)
    requires Next(db, action) == Success(after) && !action.PlacingHold? && !action.ReleasingHold?
    ensures after.holds == db.holds
  {
    if action.ConfirmingPayment? {
      ConfirmKeepsHolds(db, action.id, action.event, action.month, after);
    } else if action.AcceptingReport? || action.EscalatingReport? {
      ReportKeepsHolds(db, action, after);
    } else if OnReports(action) {
      TriageKeepsHolds(db, action, after);
    } else if IsMove(action) || action.MarkingPaid? {
      MoveKeepsHolds(db, action, after);
    } else {
      RowKeepsHolds(db, action, after);
    }
  }

  lemma TermsStay(db: Db, effect: Effect, after: Db, id: Id)
    requires Shows(db, effect, after) && id in db.bookings
    ensures id in after.bookings && after.bookings[id].terms == db.bookings[id].terms
  {
    if effect.Moves? {
      TermsNeverChange(CaseOf(db, effect.id), effect.a, CaseNext(CaseOf(db, effect.id), effect.a).value);
    }
  }

  /** An active hold stays in force until it is released itself. */
  lemma HoldStays(db: Db, action: Action, after: Db, hold: Id, id: Id)
    requires CoveredBy(db, hold, id) && Next(db, action) == Success(after) && action != ReleasingHold(hold)
    ensures CoveredBy(after, hold, id)
  {
    NextShows(db, action, after);
    TermsStay(db, EffectOf(db, action), after, id);
    match action
    case PlacingHold(_, _, _, _) =>
    case ReleasingHold(_) =>
    case _ => OtherActionsKeepHolds(db, action, after);
  }
}
