/** What each operation does to the database as a whole. A refused operation is a
    `Failure`: its transaction rolls back and the database stays as it was. */
module Operations {
  import opened Wrappers
  import opened Money
  import opened Escrow
  import opened Codes
  import opened Bookings
  import opened Database

  // ---- Text and lookups ----

  /** White space and line terminators, as `String.prototype.trim` reads them
      (sections 12.2 and 12.3 of ECMA-262). */
  predicate IsSpace(ch: char) {
    || '\t' <= ch <= '\r' || ch == ' ' || ch == '\U{00a0}' || ch == '\U{1680}' || '\U{2000}' <= ch <= '\U{200a}'
    || ch == '\U{2028}' || ch == '\U{2029}' || ch == '\U{202f}' || ch == '\U{205f}' || ch == '\U{3000}'
    || ch == '\U{feff}'
  }

  function TrimStart(s: string): string {
    if s != [] && IsSpace(s[0]) then TrimStart(s[1..]) else s
  }

  function TrimEnd(s: string): string {
    if s != [] && IsSpace(s[|s| - 1]) then TrimEnd(s[..|s| - 1]) else s
  }

  function Trim(s: string): string {
    TrimEnd(TrimStart(s))
  }

  function Counter(counters: map<YearMonth, nat>, month: YearMonth): nat {
    if month in counters then counters[month] else 0
  }

  /** Some payment of the booking has been marked SUCCESSFUL. */
  predicate HasPaid(db: Db, id: Id) {
    exists charge :: charge in db.payments && db.payments[charge] == Payment(id, Successful)
  }

  predicate Covers(h: Hold, id: Id, host: Id) {
    !h.released && (h.scope == BookingHold(id) || h.scope == HostHold(host))
  }

  predicate ActiveHold(db: Db, id: Id, host: Id) {
    exists h :: h in db.holds && Covers(db.holds[h], id, host)
  }

  /** The host's most recently created payout account. */
  function NewestAccount(accounts: seq<Account>, host: Id): Option<Account> {
    if accounts == [] then None
    else
      var before, last := NewestAccount(accounts[..|accounts| - 1], host), accounts[|accounts| - 1];
      if last.user == host && (before.None? || before.value.createdAt < last.createdAt) then Some(last) else before
  }

  /** The reconciliation gate: the ledger is sound and the gateway's balance covers
      everything still in escrow. A surplus is fine. */
  predicate ReconcileOk(ledger: seq<Entry>, balance: int) {
    InvariantHolds(ledger) && balance >= Obligation(ledger)
  }

  // ---- Strikes ----

  const STRIKE_SUSPENSION_THRESHOLD := 3

  function CountStrikes(strikes: seq<Strike>, host: Id): nat {
    if strikes == [] then 0
    else CountStrikes(strikes[..|strikes| - 1], host) + (if strikes[|strikes| - 1].host == host then 1 else 0)
  }

  function IssueStrike(db: Db, strike: Strike): Db {
    var strikes := db.strikes + [strike];
    db.(strikes := strikes,
        suspended := if CountStrikes(strikes, strike.host) >= STRIKE_SUSPENSION_THRESHOLD then
                       db.suspended + {strike.host}
                     else db.suspended)
  }

  // ---- Bookings ----

  function Create(db: Db, id: Id, row: Booking): Result<Db, Error> {
    if id in db.bookings then Failure(DuplicateRow)
    else if !FitsColumn(row.terms.total) || !FitsColumn(row.terms.commission) then Failure(ColumnOverflow)
    else Success(db.(bookings := db.bookings[id := row]))
  }

  function Request(db: Db, id: Id, terms: Terms, now: int): Result<Db, Error> {
    Create(db, id, RequestRow(terms, now))
  }

  function InstantHold(db: Db, id: Id, terms: Terms, now: int, datesTaken: bool): Result<Db, Error> {
    if datesTaken then Failure(DatesTaken) else Create(db, id, InstantRow(terms, now))
  }

  /** The transitions any caller may ask for directly. The others are reached through
      the operations below, which read further tables first. */
  type DirectAction = a: CaseAction |
    !a.Confirming? && !a.FreezingForReport? && !a.PayingOut? && !a.RefundingCancelled? && !a.Finalizing?
    witness CheckingIn

  /** The transitions that put the blame on the host. */
  predicate HostFault(a: CaseAction) {
    || a.CancellingAsHost?
    || (a.ResolvingDispute? && a.res.RefundAll?)
    || (a.ResolvingAppeal? && a.res.RefundAll?)
  }

  function Act(db: Db, id: Id, a: CaseAction): Result<Db, Error> {
    if id !in db.bookings then Failure(NotFound)
    else
      var c :- CaseNext(CaseOf(db, id), a);
      Success(if HostFault(a) then IssueStrike(Put(db, id, c), Strike(c.row.terms.host, Some(id), HostCancelled))
              else Put(db, id, c))
  }

  /** Confirm the booking under a code, with the event claimed and the counter bumped. */
  function RecordConfirmation(db: Db, id: Id, event: Id, code: Code): Result<Db, Error>
    requires id in db.bookings
  {
    var c :- CaseOf(db, id).Confirm(event, code);
    Success(Put(db, id, c).(events := db.events + {event}, counters := db.counters[code.month := code.number]))
  }

  /** A replayed event changes nothing; a refused confirmation also gives back the
      event claim and the code number. */
  function ConfirmFromWebhook(db: Db, id: Id, event: Id, month: YearMonth): Result<Db, Error> {
    if id !in db.bookings then Failure(NotFound)
    else if event in db.events then Success(db)
    else RecordConfirmation(db, id, event, Code(month, Counter(db.counters, month) + 1))
  }

  function RefundCancelled(db: Db, id: Id, gateway: Option<Id>): Result<Db, Error> {
    Act(db, id, RefundingCancelled(HasPaid(db, id), gateway))
  }

  function FinalizeRefund(db: Db, id: Id, gateway: Option<Id>): Result<Db, Error> {
    Act(db, id, Finalizing(HasPaid(db, id), gateway))
  }

  // ---- Payments ----

  function AddPayment(db: Db, charge: Id, id: Id): Result<Db, Error> {
    if id !in db.bookings then Failure(NotFound)
    else if charge in db.payments then Failure(DuplicateRow)
    else Success(db.(payments := db.payments[charge := Payment(id, Pending)]))
  }

  /** An update of no rows when the charge has no payment row. */
  function MarkPayment(db: Db, charge: Id, status: PaymentStatus): Db {
    if charge in db.payments then db.(payments := db.payments[charge := db.payments[charge].(status := status)]) else db
  }

  /** The compare-and-swap on a payment's status. */
  function SwapPayment(db: Db, charge: Id, from: PaymentStatus, to: PaymentStatus): Db {
    if charge in db.payments && db.payments[charge].status == from then MarkPayment(db, charge, to) else db
  }

  // ---- Payouts ----

  function MarkPaid(db: Db, admin: Id, id: Id, slipRef: string, balance: int): Result<Db, Error> {
    if Trim(slipRef) == "" then Failure(SlipRequired)
    else if id !in db.bookings then Failure(NotFound)
    else if !db.bookings[id].escrow.Releasable? then Failure(NotReleasable)
    else
      var host := db.bookings[id].terms.host;
      if ActiveHold(db, id, host) then Failure(OnHold)
      else if NewestAccount(db.accounts, host).None? then Failure(NoPayoutAccount)
      else if !ReconcileOk(db.ledger, balance) then Failure(ReconcileBlocked)
      else Act(db, id, PayingOut(admin, NewestAccount(db.accounts, host).value.id, Trim(slipRef)))
  }

  function PlaceHold(db: Db, hold: Id, id: Option<Id>, host: Option<Id>, reason: string): Result<Db, Error> {
    if id.Some? <==> host.Some? then Failure(TargetRequired)
    else if Trim(reason) == "" then Failure(ReasonRequired)
    else if id.Some? && id.value !in db.bookings then Failure(NotFound)
    else if hold in db.holds then Failure(DuplicateRow)
    else
      var scope := if id.Some? then BookingHold(id.value) else HostHold(host.value);
      Success(db.(holds := db.holds[hold := Hold(scope, Trim(reason), false)]))
  }

  function ReleaseHold(db: Db, hold: Id): Result<Db, Error> {
    if hold !in db.holds || db.holds[hold].released then Failure(NotFound)
    else Success(db.(holds := db.holds[hold := db.holds[hold].(released := true)]))
  }

  function AddAccount(db: Db, account: Account): Db {
    db.(accounts := db.accounts + [account])
  }

  // ---- Reports ----

  function FileBookingReport(db: Db, report: Id, reporter: Id, id: Id): Result<Db, Error> {
    if id !in db.bookings then Failure(NotFound)
    else if db.bookings[id].terms.guest != reporter && db.bookings[id].terms.host != reporter then Failure(NotRelated)
    else if report in db.reports then Failure(DuplicateRow)
    else Success(db.(reports := db.reports[report := Report(ReportStatus.Received, OnBooking(id))]))
  }

  /** Reports on listings, reviews and users. */
  function FileOtherReport(db: Db, report: Id, target: ReportTarget): Result<Db, Error>
    requires !target.OnBooking?
  {
    if report in db.reports then Failure(DuplicateRow)
    else Success(db.(reports := db.reports[report := Report(ReportStatus.Received, target)]))
  }

  function SetReportStatus(db: Db, report: Id, status: ReportStatus): Db
    requires report in db.reports
  {
    db.(reports := db.reports[report := db.reports[report].(status := status)])
  }

  function AcceptIntoReview(db: Db, report: Id): Result<Db, Error> {
    if report !in db.reports then Failure(NotFound)
    else if db.reports[report].status != ReportStatus.Received then Failure(WrongState)
    else
      var target := db.reports[report].target;
      var frozen :- if target.OnBooking? && target.bookingId in db.bookings then
                      Act(db, target.bookingId, FreezingForReport(report))
                    else Success(db);
      Success(frozen.(reports := db.reports[report := db.reports[report].(status := InReview)]))
  }

  function CloseReport(db: Db, report: Id, reason: string, outcome: ReportStatus): Result<Db, Error>
    requires outcome.Resolved? || outcome.Dismissed?
  {
    if Trim(reason) == "" then Failure(ReasonRequired)
    else if report !in db.reports then Failure(NotFound)
    else if !db.reports[report].status.Received? && !db.reports[report].status.InReview? then Failure(WrongState)
    else Success(SetReportStatus(db, report, outcome))
  }

  /** Reopens the report whatever its status was. */
  function UnlistFromReport(db: Db, report: Id): Result<Db, Error> {
    if report !in db.reports then Failure(NotFound)
    else if !db.reports[report].target.OnListing? then Failure(NotListingReport)
    else Success(SetReportStatus(db, report, InReview))
  }

  /** The first of two transactions: a dispute, opened in the guest's name. */
  function EscalateToDispute(db: Db, report: Id, dispute: Id): Result<Db, Error> {
    if report !in db.reports then Failure(NotFound)
    else if !db.reports[report].target.OnBooking? || db.reports[report].target.bookingId !in db.bookings then
      Failure(NotBookingReport)
    else
      var id := db.reports[report].target.bookingId;
      Act(db, id, OpeningDispute(db.bookings[id].terms.guest, dispute))
  }

  /** The second: the escalated report goes into review, whatever its status was. */
  function ReviewEscalated(db: Db, report: Id): Result<Db, Error> {
    if report !in db.reports then Failure(NotFound)
    else if !db.reports[report].target.OnBooking? then Failure(NotBookingReport)
    else Success(SetReportStatus(db, report, InReview))
  }

  function StrikeHostFromReport(db: Db, report: Id, reason: StrikeReason): Result<Db, Error> {
    if report !in db.reports then Failure(NotFound)
    else
      match db.reports[report].target
      case OnBooking(id) =>
        if id in db.bookings then Success(IssueStrike(db, Strike(db.bookings[id].terms.host, Some(id), reason)))
        else Failure(NotFound)
      case OnListing(host) => Success(IssueStrike(db, Strike(host, None, reason)))
      case OnOther => Failure(NotFound)
  }

  // ---- Runs ----

  datatype Action =
    | Requesting(id: Id, terms: Terms, now: int)
    | HoldingInstantly(id: Id, terms: Terms, now: int, datesTaken: bool)
    | Acting(id: Id, a: DirectAction)
    | ConfirmingPayment(id: Id, event: Id, month: YearMonth)
    | SendingRefund(id: Id, gateway: Option<Id>)
    | FinalizingRefund(id: Id, gateway: Option<Id>)
    | AddingPayment(charge: Id, id: Id)
    | MarkingPayment(charge: Id, status: PaymentStatus)
    | SwappingPayment(charge: Id, from: PaymentStatus, to: PaymentStatus)
    | MarkingPaid(admin: Id, id: Id, slipRef: string, balance: int)
    | PlacingHold(hold: Id, booking: Option<Id>, host: Option<Id>, reason: string)
    | ReleasingHold(hold: Id)
    | AddingAccount(account: Account)
    | FilingBookingReport(report: Id, reporter: Id, id: Id)
    | FilingListingReport(report: Id, lister: Id)
    | FilingOtherReport(report: Id)
    | AcceptingReport(report: Id)
    | ResolvingReport(report: Id, reason: string)
    | DismissingReport(report: Id, reason: string)
    | UnlistingFromReport(report: Id)
    | EscalatingReport(report: Id, dispute: Id)
    | ReviewingEscalated(report: Id)
    | StrikingFromReport(report: Id, strike: StrikeReason)

  function Next(db: Db, action: Action): Result<Db, Error> {
    match action
    case Requesting(id, terms, now) => Request(db, id, terms, now)
    case HoldingInstantly(id, terms, now, datesTaken) => InstantHold(db, id, terms, now, datesTaken)
    case Acting(id, a) => Act(db, id, a)
    case ConfirmingPayment(id, event, month) => ConfirmFromWebhook(db, id, event, month)
    case SendingRefund(id, gateway) => RefundCancelled(db, id, gateway)
    case FinalizingRefund(id, gateway) => FinalizeRefund(db, id, gateway)
    case AddingPayment(charge, id) => AddPayment(db, charge, id)
    case MarkingPayment(charge, status) => Success(MarkPayment(db, charge, status))
    case SwappingPayment(charge, from, to) => Success(SwapPayment(db, charge, from, to))
    case MarkingPaid(admin, id, slipRef, balance) => MarkPaid(db, admin, id, slipRef, balance)
    case PlacingHold(hold, booking, host, reason) => PlaceHold(db, hold, booking, host, reason)
    case ReleasingHold(hold) => ReleaseHold(db, hold)
    case AddingAccount(account) => Success(AddAccount(db, account))
    case FilingBookingReport(report, reporter, id) => FileBookingReport(db, report, reporter, id)
    case FilingListingReport(report, lister) => FileOtherReport(db, report, OnListing(lister))
    case FilingOtherReport(report) => FileOtherReport(db, report, OnOther)
    case AcceptingReport(report) => AcceptIntoReview(db, report)
    case ResolvingReport(report, reason) => CloseReport(db, report, reason, Resolved)
    case DismissingReport(report, reason) => CloseReport(db, report, reason, Dismissed)
    case UnlistingFromReport(report) => UnlistFromReport(db, report)
    case EscalatingReport(report, dispute) => EscalateToDispute(db, report, dispute)
    case ReviewingEscalated(report) => ReviewEscalated(db, report)
    case StrikingFromReport(report, reason) => StrikeHostFromReport(db, report, reason)
  }

  function Step(db: Db, action: Action): Db {
    match Next(db, action)
    case Success(after) => after
    case Failure(_) => db
  }

  function Run(db: Db, actions: seq<Action>): Db {
    if actions == [] then db else Step(Run(db, actions[..|actions| - 1]), actions[|actions| - 1])
  }
}
