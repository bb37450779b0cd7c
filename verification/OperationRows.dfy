/** What the operations on the whole database leave in its tables, row by row, and which
    refusal each gives, in the order of its guards. */
module OperationRows {
  import opened Wrappers
  import opened Money
  import opened Codes
  import opened Bookings
  import opened Database
  import opened Operations
  import Effects

  // ---- Text ----

  /** The characters that count as white space, by their code points. */
  lemma SpaceCodes(ch: char)
    ensures var code := ch as int;
            IsSpace(ch) <==>
            || 9 <= code <= 13 || code == 32 || code == 160 || code == 0x1680 || 0x2000 <= code <= 0x200a
            || code == 0x2028 || code == 0x2029 || code == 0x202f || code == 0x205f || code == 0x3000 || code == 0xfeff
  {
  }

  predicate AllSpace(s: string) {
    forall k :: 0 <= k < |s| ==> IsSpace(s[k])
  }

  /** Trimming takes white space off both ends and nothing else. */
  lemma TrimIs(s: string) returns (left: string, right: string)
    ensures s == left + Trim(s) + right && AllSpace(left) && AllSpace(right)
    ensures Trim(s) != [] ==> !IsSpace(Trim(s)[0]) && !IsSpace(Trim(s)[|Trim(s)| - 1])
  {
    left := TrimStartIs(s);
    right := TrimEndIs(TrimStart(s));
    if Trim(s) != [] {
      assert Trim(s)[0] == TrimStart(s)[0];
    }
  }

  lemma {:induction false} TrimStartIs(s: string) returns (left: string)
    ensures s == left + TrimStart(s) && AllSpace(left)
    ensures TrimStart(s) != [] ==> !IsSpace(TrimStart(s)[0])
  {
    left := [];
    if s != [] && IsSpace(s[0]) {
      var rest := TrimStartIs(s[1..]);
      left := [s[0]] + rest;
    }
  }

  lemma {:induction false} TrimEndIs(s: string) returns (right: string)
    ensures s == TrimEnd(s) + right && AllSpace(right)
    ensures TrimEnd(s) != [] ==> !IsSpace(TrimEnd(s)[|TrimEnd(s)| - 1])
  {
    right := [];
    if s != [] && IsSpace(s[|s| - 1]) {
      var rest := TrimEndIs(s[..|s| - 1]);
      right := rest + [s[|s| - 1]];
    }
  }

  // ---- New bookings and confirmations ----

  /** A booking is made under a new id with amounts its columns can hold, and for free
      dates if it is instant. */
  lemma CreationRows(db: Db, id: Id, terms: Terms, now: int, datesTaken: bool)
    ensures var r := InstantHold(db, id, terms, now, datesTaken);
            && (r == Failure(DatesTaken) <==> datesTaken)
            && (r == Failure(DuplicateRow) <==> !datesTaken && id in db.bookings)
            && (r == Failure(ColumnOverflow)
                <==> !datesTaken && id !in db.bookings && !(FitsColumn(terms.total) && FitsColumn(terms.commission)))
            && (r.Failure? ==> r.error in {DatesTaken, DuplicateRow, ColumnOverflow})
            && (r.Success? ==> r.value == db.(bookings := db.bookings[id := InstantRow(terms, now)]))
    ensures var r := Request(db, id, terms, now);
            && (r == Failure(DuplicateRow) <==> id in db.bookings)
            && (r == Failure(ColumnOverflow)
                <==> id !in db.bookings && !(FitsColumn(terms.total) && FitsColumn(terms.commission)))
            && (r.Failure? ==> r.error in {DuplicateRow, ColumnOverflow})
            && (r.Success? ==> r.value == db.(bookings := db.bookings[id := RequestRow(terms, now)]))
  {
  }

  /** A fresh confirmation claims its event, takes the next number of the given month, and
      puts both on the booking; a replay changes nothing. */
  lemma ConfirmationRows(db: Db, id: Id, event: Id, month: YearMonth)
    ensures var r := ConfirmFromWebhook(db, id, event, month);
            var number := if month in db.counters then db.counters[month] + 1 else 1;
            && (r == Failure(NotFound) <==> id !in db.bookings)
            && (id in db.bookings && event in db.events ==> r == Success(db))
            && (id in db.bookings && event !in db.events && !db.bookings[id].status.AwaitingPayment? ==>
                r == Failure(WrongState))
            && (id in db.bookings && event !in db.events && r.Success? ==>
                && r.value.events == db.events + {event} && r.value.counters == db.counters[month := number]
                && id in r.value.bookings && r.value.bookings[id].code == Some(Code(month, number)))
  {
  }

  // ---- Strikes ----

  function StrikesOf(strikes: seq<Strike>, host: Id): set<nat> {
    set i: nat | i < |strikes| && strikes[i].host == host
  }

  lemma {:induction false} CountIsCardinality(strikes: seq<Strike>, host: Id)
    ensures CountStrikes(strikes, host) == |StrikesOf(strikes, host)|
  {
    if strikes != [] {
      var n := |strikes| - 1;
      CountIsCardinality(strikes[..n], host);
      var before := StrikesOf(strikes[..n], host);
      assert StrikesOf(strikes, host) == if strikes[n].host == host then before + {n} else before;
    }
  }

  /** A strike is appended, and its host suspended from the third on. */
  lemma StrikeRows(db: Db, strike: Strike)
    ensures var after := IssueStrike(db, strike);
            && after == db.(strikes := db.strikes + [strike], suspended := after.suspended)
            && after.suspended == if |StrikesOf(after.strikes, strike.host)| >= 3 then db.suspended + {strike.host}
                                  else db.suspended
  {
    CountIsCardinality(db.strikes + [strike], strike.host);
  }

  /** A host's cancellation and a full refund of a dispute strike the booking's host; no
      other transition strikes anybody. */
  lemma TransitionStrikes(db: Db, id: Id, a: CaseAction, after: Db)
    requires Act(db, id, a) == Success(after)
    ensures id in db.bookings && CaseNext(CaseOf(db, id), a).Success?
    ensures var blames := || a.CancellingAsHost?
                          || ((a.ResolvingDispute? || a.ResolvingAppeal?) && a.res.RefundAll?);
            var put := Put(db, id, CaseNext(CaseOf(db, id), a).value);
            var strike := Strike(db.bookings[id].terms.host, Some(id), HostCancelled);
            after == if blames then IssueStrike(put, strike) else put
  {
    Effects.TermsNeverChange(CaseOf(db, id), a, CaseNext(CaseOf(db, id), a).value);
  }

  // ---- Payments ----

  lemma PaymentRows(db: Db, charge: Id, id: Id, status: PaymentStatus, from: PaymentStatus)
    ensures AddPayment(db, charge, id)
            == if id !in db.bookings then Failure(NotFound) else if charge in db.payments then Failure(DuplicateRow)
               else Success(db.(payments := db.payments[charge := Payment(id, PaymentStatus.Pending)]))
    ensures var after := MarkPayment(db, charge, status);
            && after == db.(payments := after.payments) && after.payments.Keys == db.payments.Keys
            && (charge in db.payments ==> after.payments[charge] == Payment(db.payments[charge].bookingId, status))
            && forall c :: c in db.payments && c != charge ==> after.payments[c] == db.payments[c]
    ensures SwapPayment(db, charge, from, status)
            == if charge in db.payments && db.payments[charge].status == from then MarkPayment(db, charge, status)
               else db
    ensures HasPaid(db, id) <==>
            exists c :: c in db.payments && db.payments[c].bookingId == id && db.payments[c].status.Successful?
  {
    if HasPaid(db, id) {
      var c :| c in db.payments && db.payments[c] == Payment(id, Successful);
    }
    if exists c :: c in db.payments && db.payments[c].bookingId == id && db.payments[c].status.Successful? {
      var c :| c in db.payments && db.payments[c].bookingId == id && db.payments[c].status.Successful?;
      assert db.payments[c] == Payment(id, Successful);
    }
  }

  // ---- Payouts ----

  /** Marking paid: slip, booking, money, hold, account and reconciliation are asked in this
      order; then the newest account is paid. */
  lemma MarkPaidRows(db: Db, admin: Id, id: Id, slip: string, balance: int)
    ensures var r := MarkPaid(db, admin, id, slip, balance);
            var known := Trim(slip) != "" && id in db.bookings;
            var due := known && db.bookings[id].escrow.Releasable?;
            var free := due && !ActiveHold(db, id, db.bookings[id].terms.host);
            var payable := free && NewestAccount(db.accounts, db.bookings[id].terms.host).Some?;
            && (r == Failure(SlipRequired) <==> Trim(slip) == "")
            && (r == Failure(NotFound) <==> Trim(slip) != "" && id !in db.bookings)
            && (r == Failure(NotReleasable) <==> known && !due)
            && (r == Failure(OnHold) <==> due && !free)
            && (r == Failure(NoPayoutAccount) <==> free && !payable)
            && (r == Failure(ReconcileBlocked) <==> payable && !ReconcileOk(db.ledger, balance))
            && (payable && ReconcileOk(db.ledger, balance) ==>
                var account := NewestAccount(db.accounts, db.bookings[id].terms.host).value;
                r == Act(db, id, PayingOut(admin, account.id, Trim(slip))))
  {
    if id in db.bookings {
      var account := NewestAccount(db.accounts, db.bookings[id].terms.host);
      if account.Some? {
        PayOutErrors(db, id, admin, account.value.id, Trim(slip));
      }
    }
  }

  lemma PayOutErrors(db: Db, id: Id, admin: Id, account: Id, slip: string)
    requires id in db.bookings
    ensures var r := Act(db, id, PayingOut(admin, account, slip));
            r.Failure? ==> r.error.EscrowRefused? || r.error.DuplicateRow?
  {
  }

  // ---- Reports ----

  /** A report on a booking comes from one of its parties. */
  lemma FilingRows(db: Db, report: Id, reporter: Id, id: Id)
    ensures var r := FileBookingReport(db, report, reporter, id);
            var party := id in db.bookings
                         && (reporter == db.bookings[id].terms.guest || reporter == db.bookings[id].terms.host);
            && (r == Failure(NotFound) <==> id !in db.bookings)
            && (r == Failure(NotRelated) <==> id in db.bookings && !party)
            && (r == Failure(DuplicateRow) <==> party && report in db.reports)
            && (r.Success? <==> party && report !in db.reports)
            && (r.Success? ==>
                r.value == db.(reports := db.reports[report := Report(ReportStatus.Received, OnBooking(id))]))
  {
  }

  lemma OtherFilingRows(db: Db, report: Id, target: ReportTarget)
    requires !target.OnBooking?
    ensures FileOtherReport(db, report, target)
            == if report in db.reports then Failure(DuplicateRow)
               else Success(db.(reports := db.reports[report := Report(ReportStatus.Received, target)]))
  {
  }

  /** The report as it is, with another status. */
  function WithStatus(db: Db, report: Id, status: ReportStatus): map<Id, Report>
    requires report in db.reports
  {
    db.reports[report := Report(status, db.reports[report].target)]
  }

  /** A waiting report goes into review, and with it the freeze of its booking. */
  lemma ReviewRows(db: Db, report: Id)
    ensures var r := AcceptIntoReview(db, report);
            && (r == Failure(NotFound) <==> report !in db.reports)
            && (r == Failure(WrongState)
                <==> report in db.reports && db.reports[report].status != ReportStatus.Received)
            && (r.Success? ==>
                && report in db.reports && r.value.reports == WithStatus(db, report, InReview)
                && match db.reports[report].target
                   case OnBooking(id) =>
                     if id in db.bookings then
                       && Act(db, id, FreezingForReport(report)).Success?
                       && r.value == Act(db, id, FreezingForReport(report)).value.(reports := r.value.reports)
                     else r.value == db.(reports := r.value.reports)
                   case _ => r.value == db.(reports := r.value.reports))
  {
    if report in db.reports && db.reports[report].target.OnBooking?
        && db.reports[report].target.bookingId in db.bookings {
      FreezeErrors(db, db.reports[report].target.bookingId, report);
    }
  }

  lemma FreezeErrors(db: Db, id: Id, report: Id)
    requires id in db.bookings
    ensures var r := Act(db, id, FreezingForReport(report));
            if r.Success? then r.value.reports == db.reports else r.error.EscrowRefused?
  {
  }

  /** An open report is closed for a reason, as resolved or dismissed. */
  lemma ClosingRows(db: Db, report: Id, reason: string, outcome: ReportStatus)
    requires outcome.Resolved? || outcome.Dismissed?
    ensures var r := CloseReport(db, report, reason, outcome);
            var open := report in db.reports
                && (db.reports[report].status.Received? || db.reports[report].status.InReview?);
            && (r == Failure(ReasonRequired) <==> Trim(reason) == "")
            && (r == Failure(NotFound) <==> Trim(reason) != "" && report !in db.reports)
            && (r == Failure(WrongState) <==> Trim(reason) != "" && report in db.reports && !open)
            && (r.Success? <==> Trim(reason) != "" && open)
            && (r.Success? ==> r.value == db.(reports := WithStatus(db, report, outcome)))
  {
  }

  /** Unlisting and escalating ask for the kind of report, not for its status. */
  lemma TriageRows(db: Db, report: Id, dispute: Id)
    ensures var r := UnlistFromReport(db, report);
            && (r == Failure(NotFound) <==> report !in db.reports)
            && (r == Failure(NotListingReport) <==> report in db.reports && !db.reports[report].target.OnListing?)
            && (r.Success? <==> report in db.reports && db.reports[report].target.OnListing?)
            && (r.Success? ==> r.value == db.(reports := WithStatus(db, report, InReview)))
    ensures var r := ReviewEscalated(db, report);
            && (r == Failure(NotFound) <==> report !in db.reports)
            && (r == Failure(NotBookingReport) <==> report in db.reports && !db.reports[report].target.OnBooking?)
            && (r.Success? ==> report in db.reports && r.value == db.(reports := WithStatus(db, report, InReview)))
    ensures var r := EscalateToDispute(db, report, dispute);
            var booked := report in db.reports && db.reports[report].target.OnBooking?
                          && db.reports[report].target.bookingId in db.bookings;
            && (report !in db.reports ==> r == Failure(NotFound))
            && (report in db.reports && !booked ==> r == Failure(NotBookingReport))
            && (booked ==>
                var id := db.reports[report].target.bookingId;
                r == Act(db, id, OpeningDispute(db.bookings[id].terms.guest, dispute)))
  {
  }

  /** A strike from a report goes to the host of its booking or listing. */
  lemma ReportStrikes(db: Db, report: Id, reason: StrikeReason)
    ensures var r := StrikeHostFromReport(db, report, reason);
            if report !in db.reports then r == Failure(NotFound)
            else
              match db.reports[report].target
              case OnBooking(id) =>
                r == if id in db.bookings then
                       Success(IssueStrike(db, Strike(db.bookings[id].terms.host, Some(id), reason)))
                     else Failure(NotFound)
              case OnListing(host) => r == Success(IssueStrike(db, Strike(host, None, reason)))
              case OnOther => r == Failure(NotFound)
  {
  }
}
