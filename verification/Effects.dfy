/** What an accepted action changes, stated once for all actions: its effect on the
    bookings, and its effect on the tables beside them. */
module Effects {
  import opened Wrappers
  import opened Money
  import opened Codes
  import opened Bookings
  import opened Database
  import opened Operations

  /** What an action does to the bookings, if it is accepted: nothing, a new booking,
      or one transition of one booking. */
  datatype Effect = Aside | Creates(id: Id, row: Booking) | Moves(id: Id, a: CaseAction)

  function EffectOf(db: Db, action: Action): Effect {
    match action
    case Requesting(id, terms, now) => Creates(id, RequestRow(terms, now))
    case HoldingInstantly(id, terms, now, _) => Creates(id, InstantRow(terms, now))
    case Acting(id, a) => Moves(id, a)
    case ConfirmingPayment(id, event, month) =>
      if event in db.events then Aside else Moves(id, Confirming(event, Code(month, Counter(db.counters, month) + 1)))
    case SendingRefund(id, gateway) => Moves(id, RefundingCancelled(HasPaid(db, id), gateway))
    case FinalizingRefund(id, gateway) => Moves(id, Finalizing(HasPaid(db, id), gateway))
    case MarkingPaid(admin, id, slipRef, _) =>
      if id !in db.bookings then Aside
      else
        var account := NewestAccount(db.accounts, db.bookings[id].terms.host);
        if account.None? then Aside else Moves(id, PayingOut(admin, account.value.id, Trim(slipRef)))
    case AcceptingReport(report) =>
      if ReportsBooking(db, report) then Moves(db.reports[report].target.bookingId, FreezingForReport(report))
      else Aside
    case EscalatingReport(report, dispute) =>
      if ReportsBooking(db, report) then
        var id := db.reports[report].target.bookingId;
        Moves(id, OpeningDispute(db.bookings[id].terms.guest, dispute))
      else Aside
    case _ => Aside
  }

  predicate ReportsBooking(db: Db, report: Id) {
    && report in db.reports && db.reports[report].target.OnBooking?
    && db.reports[report].target.bookingId in db.bookings
  }

  predicate SameCases(a: Db, b: Db) {
    && a.bookings == b.bookings && a.ledger == b.ledger && a.refunds == b.refunds
    && a.disputes == b.disputes && a.payouts == b.payouts
  }

  /** `after` differs from `db`, as far as bookings go, by this effect. */
  predicate Shows(db: Db, effect: Effect, after: Db) {
    match effect
    case Aside => SameCases(after, db)
    case Creates(id, row) =>
      id !in db.bookings && FitsColumn(row.terms.total) && SameCases(after, db.(bookings := db.bookings[id := row]))
    case Moves(id, a) =>
      && id in db.bookings && CaseNext(CaseOf(db, id), a).Success?
      && SameCases(after, Put(db, id, CaseNext(CaseOf(db, id), a).value))
  }

  lemma StrikeIsAside(db: Db, strike: Strike)
    ensures SameCases(IssueStrike(db, strike), db)
  {
  }

  lemma ActShows(db: Db, id: Id, a: CaseAction, after: Db)
    requires Act(db, id, a) == Success(after)
    ensures Shows(db, Moves(id, a), after)
  {
    if HostFault(a) {
      var c := CaseNext(CaseOf(db, id), a).value;
      StrikeIsAside(Put(db, id, c), Strike(c.row.terms.host, Some(id), HostCancelled));
    }
  }

  lemma MarkPaidShows(db: Db, action: Action, after: Db)
    requires action.MarkingPaid? && Next(db, action) == Success(after)
    ensures Shows(db, EffectOf(db, action), after)
  {
    var account := NewestAccount(db.accounts, db.bookings[action.id].terms.host).value;
    ActShows(db, action.id, PayingOut(action.admin, account.id, Trim(action.slipRef)), after);
  }

  lemma ReportShows(db: Db, action: Action, after: Db)
    requires action.AcceptingReport? || action.EscalatingReport?
    requires Next(db, action) == Success(after)
    ensures Shows(db, EffectOf(db, action), after)
  {
    if ReportsBooking(db, action.report) {
      var id := db.reports[action.report].target.bookingId;
      var a := EffectOf(db, action).a;
      ActShows(db, id, a, Act(db, id, a).value);
    }
  }

  lemma RecordShows(db: Db, id: Id, event: Id, code: Code, after: Db)
    requires id in db.bookings && RecordConfirmation(db, id, event, code) == Success(after)
    ensures Shows(db, Moves(id, Confirming(event, code)), after)
  {
  }

  lemma ConfirmShows(db: Db, id: Id, event: Id, month: YearMonth, after: Db)
    requires ConfirmFromWebhook(db, id, event, month) == Success(after)
    ensures Shows(db, EffectOf(db, ConfirmingPayment(id, event, month)), after)
  {
    if event !in db.events {
      RecordShows(db, id, event, Code(month, Counter(db.counters, month) + 1), after);
    }
  }

  predicate OnPayments(action: Action) {
    || action.AddingPayment? || action.MarkingPayment? || action.SwappingPayment?
    || action.PlacingHold? || action.ReleasingHold? || action.AddingAccount?
  }

  lemma HoldShows(db: Db, hold: Id, id: Option<Id>, host: Option<Id>, reason: string, after: Db)
    requires PlaceHold(db, hold, id, host, reason) == Success(after)
    ensures SameCases(after, db)
  {
  }

  lemma PaymentShows(db: Db, action: Action, after: Db)
    requires OnPayments(action) && Next(db, action) == Success(after)
    ensures SameCases(after, db)
  {
    if action.PlacingHold? {
      HoldShows(db, action.hold, action.booking, action.host, action.reason, after);
    } else if action.ReleasingHold? || action.AddingAccount? {
      AccountBeside(db, action, after);
    } else {
      PaymentWrites(db, action, after);
    }
  }

  predicate OnReports(action: Action) {
    || action.FilingBookingReport? || action.FilingListingReport? || action.FilingOtherReport?
    || action.ResolvingReport? || action.DismissingReport? || action.UnlistingFromReport? || action.ReviewingEscalated?
    || action.StrikingFromReport?
  }

  lemma CloseReportShows(db: Db, report: Id, reason: string, outcome: ReportStatus, after: Db)
    requires outcome.Resolved? || outcome.Dismissed?
    requires CloseReport(db, report, reason, outcome) == Success(after)
    ensures SameCases(after, db)
  {
  }

  lemma StrikeShows(db: Db, report: Id, reason: StrikeReason, after: Db)
    requires StrikeHostFromReport(db, report, reason) == Success(after)
    ensures SameCases(after, db)
  {
    match db.reports[report].target
    case OnBooking(id) => StrikeIsAside(db, Strike(db.bookings[id].terms.host, Some(id), reason));
    case OnListing(host) => StrikeIsAside(db, Strike(host, None, reason));
  }

  predicate IsFiling(action: Action) {
    action.FilingBookingReport? || action.FilingListingReport? || action.FilingOtherReport?
  }

  lemma FilingShows(db: Db, action: Action, after: Db)
    requires IsFiling(action) && Next(db, action) == Success(after)
    ensures after == db.(reports := after.reports)
  {
  }

  lemma ReviewShows(db: Db, action: Action, after: Db)
    requires (action.UnlistingFromReport? || action.ReviewingEscalated?) && Next(db, action) == Success(after)
    ensures after == db.(reports := after.reports)
  {
  }

  predicate IsClosing(action: Action) {
    action.ResolvingReport? || action.DismissingReport?
  }

  function ClosedAs(action: Action): ReportStatus
    requires IsClosing(action)
  {
    if action.ResolvingReport? then Resolved else Dismissed
  }

  lemma ClosingIsClose(db: Db, action: Action)
    requires IsClosing(action)
    ensures Next(db, action) == CloseReport(db, action.report, action.reason, ClosedAs(action))
  {
  }

  lemma ClosingShows(db: Db, action: Action, after: Db)
    requires IsClosing(action) && Next(db, action) == Success(after)
    ensures SameCases(after, db)
  {
    ClosingIsClose(db, action);
    CloseReportShows(db, action.report, action.reason, ClosedAs(action), after);
  }

  lemma TriageShows(db: Db, action: Action, after: Db)
    requires OnReports(action) && Next(db, action) == Success(after)
    ensures SameCases(after, db)
  {
    if IsClosing(action) {
      ClosingShows(db, action, after);
    } else if action.StrikingFromReport? {
      StrikeShows(db, action.report, action.strike, after);
    } else if IsFiling(action) {
      FilingShows(db, action, after);
    } else {
      ReviewShows(db, action, after);
    }
  }

  lemma CreationShows(db: Db, action: Action, after: Db)
    requires action.Requesting? || action.HoldingInstantly?
    requires Next(db, action) == Success(after)
    ensures Shows(db, EffectOf(db, action), after)
  {
  }

  predicate IsMove(action: Action) {
    action.Acting? || action.SendingRefund? || action.FinalizingRefund?
  }

  lemma MoveIsAct(db: Db, action: Action)
    requires IsMove(action)
    ensures EffectOf(db, action).Moves?
    ensures var effect := EffectOf(db, action); Next(db, action) == Act(db, effect.id, effect.a)
  {
  }

  lemma MoveShows(db: Db, action: Action, after: Db)
    requires IsMove(action) && Next(db, action) == Success(after)
    ensures Shows(db, EffectOf(db, action), after)
  {
    MoveIsAct(db, action);
    ActShows(db, EffectOf(db, action).id, EffectOf(db, action).a, after);
  }

  predicate IsAside(action: Action) {
    OnPayments(action) || OnReports(action)
  }

  lemma AsideEffect(db: Db, action: Action)
    requires IsAside(action)
    ensures EffectOf(db, action) == Aside
  {
  }

  lemma AsideShows(db: Db, action: Action, after: Db)
    requires IsAside(action) && Next(db, action) == Success(after)
    ensures Shows(db, EffectOf(db, action), after)
  {
    AsideEffect(db, action);
    if OnPayments(action) {
      PaymentShows(db, action, after);
    } else {
      TriageShows(db, action, after);
    }
  }

  lemma NextShows(db: Db, action: Action, after: Db)
    requires Next(db, action) == Success(after)
    ensures Shows(db, EffectOf(db, action), after)
  {
    if action.Requesting? || action.HoldingInstantly? {
      CreationShows(db, action, after);
    } else if IsMove(action) {
      MoveShows(db, action, after);
    } else if action.ConfirmingPayment? {
      ConfirmShows(db, action.id, action.event, action.month, after);
    } else if action.MarkingPaid? {
      MarkPaidShows(db, action, after);
    } else if action.AcceptingReport? || action.EscalatingReport? {
      ReportShows(db, action, after);
    } else {
      AsideShows(db, action, after);
    }
  }

  // ---- What an accepted action does to the tables beside the bookings ----

  function CountersAfter(db: Db, action: Action): map<YearMonth, nat> {
    if action.ConfirmingPayment? && action.event !in db.events then
      db.counters[action.month := Counter(db.counters, action.month) + 1]
    else db.counters
  }

  /** The strike an action issues. */
  function StrikeOf(db: Db, action: Action): Option<Strike> {
    match action
    case Acting(id, a) =>
      if HostFault(a) && id in db.bookings then Some(Strike(db.bookings[id].terms.host, Some(id), HostCancelled))
      else None
    case StrikingFromReport(report, reason) =>
      if report !in db.reports then None
      else if ReportsBooking(db, report) then
        var id := db.reports[report].target.bookingId;
        Some(Strike(db.bookings[id].terms.host, Some(id), reason))
      else if db.reports[report].target.OnListing? then Some(Strike(db.reports[report].target.host, None, reason))
      else None
    case _ => None
  }

  function ReportsAfter(db: Db, action: Action): map<Id, Report> {
    match action
    case FilingBookingReport(report, _, id) => db.reports[report := Report(ReportStatus.Received, OnBooking(id))]
    case FilingListingReport(report, lister) => db.reports[report := Report(ReportStatus.Received, OnListing(lister))]
    case FilingOtherReport(report) => db.reports[report := Report(ReportStatus.Received, OnOther)]
    case AcceptingReport(report) => Triaged(db.reports, report, InReview)
    case ResolvingReport(report, _) => Triaged(db.reports, report, Resolved)
    case DismissingReport(report, _) => Triaged(db.reports, report, Dismissed)
    case UnlistingFromReport(report) => Triaged(db.reports, report, InReview)
    case ReviewingEscalated(report) => Triaged(db.reports, report, InReview)
    case _ => db.reports
  }

  function Triaged(reports: map<Id, Report>, report: Id, status: ReportStatus): map<Id, Report> {
    if report in reports then reports[report := reports[report].(status := status)] else reports
  }

  predicate WritesPayments(action: Action) {
    action.AddingPayment? || action.MarkingPayment? || action.SwappingPayment?
  }

  predicate Beside(db: Db, action: Action, after: Db) {
    && after.events == (if action.ConfirmingPayment? then db.events + {action.event} else db.events)
    && (!WritesPayments(action) ==> after.payments == db.payments)
    && after.counters == CountersAfter(db, action)
    && after.reports == ReportsAfter(db, action)
    && (if StrikeOf(db, action).Some? then StruckWith(db, StrikeOf(db, action).value, after)
        else after.strikes == db.strikes && after.suspended == db.suspended)
  }

  predicate StruckWith(db: Db, strike: Strike, after: Db) {
    var struck := IssueStrike(db, strike);
    after.strikes == struck.strikes && after.suspended == struck.suspended
  }

  lemma PutBeside(db: Db, id: Id, c: Case)
    requires |EntriesOf(db.ledger, id)| <= |c.entries|
    ensures var after := Put(db, id, c);
            && after.counters == db.counters && after.reports == db.reports && after.events == db.events
            && after.payments == db.payments && after.strikes == db.strikes && after.suspended == db.suspended
  {
  }

  lemma StrikeFrame(db: Db, strike: Strike)
    ensures var after := IssueStrike(db, strike); after == db.(strikes := after.strikes, suspended := after.suspended)
  {
  }

  lemma ActBeside(db: Db, id: Id, a: CaseAction, after: Db)
    requires Act(db, id, a) == Success(after)
    ensures after.counters == db.counters && after.reports == db.reports && after.events == db.events
            && after.payments == db.payments
    ensures if HostFault(a) then StruckWith(db, Strike(db.bookings[id].terms.host, Some(id), HostCancelled), after)
            else after.strikes == db.strikes && after.suspended == db.suspended
  {
    var c := CaseNext(CaseOf(db, id), a).value;
    PutBeside(db, id, c);
    if HostFault(a) {
      TermsNeverChange(CaseOf(db, id), a, c);
      StrikeAfterPut(db, id, c);
      StrikeFrame(Put(db, id, c), Strike(c.row.terms.host, Some(id), HostCancelled));
    }
  }

  lemma TermsNeverChange(c: Case, a: CaseAction, c': Case)
    requires CaseNext(c, a) == Success(c')
    ensures c'.row.terms == c.row.terms
  {
  }

  lemma StrikeAfterPut(db: Db, id: Id, c: Case)
    requires |EntriesOf(db.ledger, id)| <= |c.entries|
    ensures var strike := Strike(c.row.terms.host, Some(id), HostCancelled);
            StruckWith(db, strike, IssueStrike(Put(db, id, c), strike))
  {
  }

  lemma RecordBeside(db: Db, id: Id, event: Id, code: Code, after: Db)
    requires id in db.bookings && RecordConfirmation(db, id, event, code) == Success(after)
    ensures after.events == db.events + {event} && after.counters == db.counters[code.month := code.number]
    ensures after.reports == db.reports && after.payments == db.payments && after.strikes == db.strikes
            && after.suspended == db.suspended
  {
  }

  /** What `Beside` asks of a confirmation. */
  lemma BesideConfirm(db: Db, id: Id, event: Id, month: YearMonth, after: Db)
    requires after.events == db.events + {event}
    requires after.counters == (if event in db.events then db.counters
                                else db.counters[month := Counter(db.counters, month) + 1])
    requires after.reports == db.reports && after.payments == db.payments && after.strikes == db.strikes
    requires after.suspended == db.suspended
    ensures Beside(db, ConfirmingPayment(id, event, month), after)
  {
  }

  lemma ConfirmBeside(db: Db, id: Id, event: Id, month: YearMonth, after: Db)
    requires ConfirmFromWebhook(db, id, event, month) == Success(after)
    ensures Beside(db, ConfirmingPayment(id, event, month), after)
  {
    if event in db.events {
      assert db.events + {event} == db.events;
    } else {
      RecordBeside(db, id, event, Code(month, Counter(db.counters, month) + 1), after);
    }
    BesideConfirm(db, id, event, month, after);
  }

  /** Taking a report on a booking into review, or escalating it, is a transition. */
  lemma BookingReportActs(db: Db, action: Action, after: Db)
    requires action.AcceptingReport? || action.EscalatingReport?
    requires ReportsBooking(db, action.report) && Next(db, action) == Success(after)
    ensures var effect := EffectOf(db, action);
            && effect.Moves? && !HostFault(effect.a) && Act(db, effect.id, effect.a).Success?
            && after == Act(db, effect.id, effect.a).value.(reports := ReportsAfter(db, action))
  {
  }

  lemma BookingReportBeside(db: Db, action: Action, after: Db)
    requires action.AcceptingReport? || action.EscalatingReport?
    requires Next(db, action) == Success(after)
    ensures Beside(db, action, after)
  {
    if ReportsBooking(db, action.report) {
      var effect := EffectOf(db, action);
      BookingReportActs(db, action, after);
      ActBeside(db, effect.id, effect.a, Act(db, effect.id, effect.a).value);
    }
  }

  lemma HoldBeside(db: Db, hold: Id, id: Option<Id>, host: Option<Id>, reason: string, after: Db)
    requires PlaceHold(db, hold, id, host, reason) == Success(after)
    ensures after == db.(holds := after.holds)
  {
  }

  lemma PaymentWrites(db: Db, action: Action, after: Db)
    requires WritesPayments(action) && Next(db, action) == Success(after)
    ensures after == db.(payments := after.payments)
  {
  }

  lemma AccountBeside(db: Db, action: Action, after: Db)
    requires action.ReleasingHold? || action.AddingAccount?
    requires Next(db, action) == Success(after)
    ensures after == db.(holds := after.holds, accounts := after.accounts)
  {
  }

  /** Payments, holds and accounts are tables of their own. */
  predicate OwnTables(db: Db, action: Action, after: Db) {
    && after == db.(payments := after.payments, holds := after.holds, accounts := after.accounts)
    && (!WritesPayments(action) ==> after.payments == db.payments)
  }

  lemma PaymentTables(db: Db, action: Action, after: Db)
    requires OnPayments(action) && Next(db, action) == Success(after)
    ensures OwnTables(db, action, after)
  {
    if action.PlacingHold? {
      HoldBeside(db, action.hold, action.booking, action.host, action.reason, after);
    } else if action.ReleasingHold? || action.AddingAccount? {
      AccountBeside(db, action, after);
    } else {
      PaymentWrites(db, action, after);
    }
  }

  lemma OwnTablesBeside(db: Db, action: Action, after: Db)
    requires OnPayments(action) && OwnTables(db, action, after)
    ensures Beside(db, action, after)
  {
  }

  lemma PaymentBeside(db: Db, action: Action, after: Db)
    requires OnPayments(action) && Next(db, action) == Success(after)
    ensures Beside(db, action, after)
  {
    PaymentTables(db, action, after);
    OwnTablesBeside(db, action, after);
  }

  lemma CloseReportBeside(db: Db, report: Id, reason: string, outcome: ReportStatus, after: Db)
    requires outcome.Resolved? || outcome.Dismissed?
    requires CloseReport(db, report, reason, outcome) == Success(after)
    ensures after == db.(reports := Triaged(db.reports, report, outcome))
  {
  }

  lemma StrikeBeside(db: Db, report: Id, reason: StrikeReason, after: Db)
    requires StrikeHostFromReport(db, report, reason) == Success(after)
    ensures StrikeOf(db, StrikingFromReport(report, reason)).Some?
    ensures after == IssueStrike(db, StrikeOf(db, StrikingFromReport(report, reason)).value)
    ensures after.counters == db.counters && after.reports == db.reports && after.events == db.events
            && after.payments == db.payments
  {
  }

  lemma FilingBeside(db: Db, action: Action, after: Db)
    requires IsFiling(action) && Next(db, action) == Success(after)
    ensures after == db.(reports := ReportsAfter(db, action))
  {
  }

  lemma UnlistBeside(db: Db, report: Id, after: Db)
    requires UnlistFromReport(db, report) == Success(after)
    ensures after == db.(reports := Triaged(db.reports, report, InReview))
  {
  }

  lemma ReviewBeside(db: Db, report: Id, after: Db)
    requires ReviewEscalated(db, report) == Success(after)
    ensures after == db.(reports := Triaged(db.reports, report, InReview))
  {
  }

  lemma ClosingReports(db: Db, action: Action)
    requires IsClosing(action)
    ensures ReportsAfter(db, action) == Triaged(db.reports, action.report, ClosedAs(action))
  {
  }

  lemma ClosingBeside(db: Db, action: Action, after: Db)
    requires IsClosing(action) && Next(db, action) == Success(after)
    ensures after == db.(reports := ReportsAfter(db, action))
  {
    ClosingIsClose(db, action);
    ClosingReports(db, action);
    CloseReportBeside(db, action.report, action.reason, ClosedAs(action), after);
  }

  lemma ReviewsBeside(db: Db, action: Action, after: Db)
    requires (action.UnlistingFromReport? || action.ReviewingEscalated?) && Next(db, action) == Success(after)
    ensures after == db.(reports := ReportsAfter(db, action))
  {
    match action
    case UnlistingFromReport(report) => UnlistBeside(db, report, after);
    case ReviewingEscalated(report) => ReviewBeside(db, report, after);
  }

  lemma ReportsBeside(db: Db, action: Action, after: Db)
    requires OnReports(action) && !action.StrikingFromReport? && after == db.(reports := ReportsAfter(db, action))
    ensures Beside(db, action, after)
  {
  }

  lemma StrikingBeside(db: Db, action: Action, after: Db)
    requires action.StrikingFromReport? && Next(db, action) == Success(after)
    ensures Beside(db, action, after)
  {
    StrikeBeside(db, action.report, action.strike, after);
  }

  lemma TriageBeside(db: Db, action: Action, after: Db)
    requires OnReports(action) && !action.StrikingFromReport? && Next(db, action) == Success(after)
    ensures Beside(db, action, after)
  {
    if IsClosing(action) {
      ClosingBeside(db, action, after);
    } else if IsFiling(action) {
      FilingBeside(db, action, after);
    } else {
      ReviewsBeside(db, action, after);
    }
    ReportsBeside(db, action, after);
  }

  lemma CreateBeside(db: Db, action: Action, after: Db)
    requires action.Requesting? || action.HoldingInstantly?
    requires Next(db, action) == Success(after)
    ensures Beside(db, action, after)
  {
  }

  lemma DirectBeside(db: Db, id: Id, a: DirectAction, after: Db)
    requires Act(db, id, a) == Success(after)
    ensures Beside(db, Acting(id, a), after)
  {
    ActBeside(db, id, a, after);
  }

  lemma RefundBeside(db: Db, action: Action, after: Db)
    requires action.SendingRefund? || action.FinalizingRefund?
    requires Next(db, action) == Success(after)
    ensures Beside(db, action, after)
  {
    ActBeside(db, action.id, EffectOf(db, action).a, after);
  }

  lemma MarkPaidBeside(db: Db, action: Action, after: Db)
    requires action.MarkingPaid? && Next(db, action) == Success(after)
    ensures Beside(db, action, after)
  {
  }

  lemma NextBeside(db: Db, action: Action, after: Db)
    requires Next(db, action) == Success(after)
    ensures Beside(db, action, after)
  {
    if action.Requesting? || action.HoldingInstantly? {
      CreateBeside(db, action, after);
    } else if action.Acting? {
      DirectBeside(db, action.id, action.a, after);
    } else if action.SendingRefund? || action.FinalizingRefund? {
      RefundBeside(db, action, after);
    } else if action.MarkingPaid? {
      MarkPaidBeside(db, action, after);
    } else if action.ConfirmingPayment? {
      ConfirmBeside(db, action.id, action.event, action.month, after);
    } else if action.AcceptingReport? || action.EscalatingReport? {
      BookingReportBeside(db, action, after);
    } else if OnPayments(action) {
      PaymentBeside(db, action, after);
    } else if action.StrikingFromReport? {
      StrikingBeside(db, action, after);
    } else {
      TriageBeside(db, action, after);
    }
  }
}
