/** The booking transitions, step by step on the store. Each is proved to do exactly
    what `Operations` says, and to roll back completely when it is refused. `Accept`,
    `Decline`, `Expire` and `CheckIn` read and then write outside a transaction; that
    nothing intervenes is an assumption of this model. */
module Transitions {
  import opened Wrappers
  import opened Money
  import opened Escrow
  import opened Codes
  import opened Refund
  import opened Bookings
  import opened Database
  import opened Operations
  import opened Effects
  import opened Persistence

  // ---- Entry ----

  method Create(s: Store, id: Id, row: Booking) returns (r: Outcome)
    modifies s`bookings
    ensures Commits(Operations.Create(old(s.Tables()), id, row), old(s.Tables()), s.Tables(), r)
  {
    if id in s.bookings {
      return Failure(DuplicateRow);
    }
    if !FitsColumn(row.terms.total) || !FitsColumn(row.terms.commission) {
      return Failure(ColumnOverflow);
    }
    s.bookings := s.bookings[id := row];
    r := Success(());
  }

  /** [start] to REQUESTED; the host has twelve hours to accept. */
  method Request(s: Store, id: Id, terms: Terms, now: int) returns (r: Outcome)
    modifies s`bookings
    ensures Commits(Operations.Request(old(s.Tables()), id, terms, now), old(s.Tables()), s.Tables(), r)
  {
    r := Create(s, id, RequestRow(terms, now));
  }

  /** [start] to AWAITING_PAYMENT; the exclusion constraint may refuse the dates. */
  method InstantHold(s: Store, id: Id, terms: Terms, now: int, datesTaken: bool) returns (r: Outcome)
    modifies s`bookings
    ensures Commits(Operations.InstantHold(old(s.Tables()), id, terms, now, datesTaken), old(s.Tables()), s.Tables(), r)
  {
    if datesTaken {
      return Failure(DatesTaken);
    }
    r := Create(s, id, InstantRow(terms, now));
  }

  // ---- Host responses, expiry and the stay ----

  /** Load a booking for its host in an expected status. */
  method LoadForHost(s: Store, id: Id, hostId: Id, status: BookingStatus) returns (r: Result<Booking, Error>)
    ensures r == if id !in s.bookings then Failure(NotFound)
                 else if s.bookings[id].terms.host != hostId then Failure(NotHost)
                 else if s.bookings[id].status != status then Failure(WrongState)
                 else Success(s.bookings[id])
  {
    if id !in s.bookings {
      return Failure(NotFound);
    }
    if s.bookings[id].terms.host != hostId {
      return Failure(NotHost);
    }
    if s.bookings[id].status != status {
      return Failure(WrongState);
    }
    r := Success(s.bookings[id]);
  }

  method Accept(s: Store, id: Id, hostId: Id, now: int, datesTaken: bool) returns (r: Outcome)
    modifies s
    ensures Commits(Act(old(s.Tables()), id, Accepting(hostId, now, datesTaken)), old(s.Tables()), s.Tables(), r)
  {
    var booking :- LoadForHost(s, id, hostId, Requested);
    if datesTaken {
      return Failure(DatesTaken);
    }
    s.Opens(id);
    var timers := booking.timers.(payBy := Some(now + PAY_HOURS_REQUEST * HOUR));
    s.UpdateBooking(s.Tables(), id, CaseOf(s.Tables(), id), booking.(status := AwaitingPayment, timers := timers));
    r := Success(());
  }

  method Decline(s: Store, id: Id, hostId: Id) returns (r: Outcome)
    modifies s
    ensures Commits(Act(old(s.Tables()), id, Declining(hostId)), old(s.Tables()), s.Tables(), r)
  {
    var booking :- LoadForHost(s, id, hostId, Requested);
    s.Opens(id);
    s.UpdateBooking(s.Tables(), id, CaseOf(s.Tables(), id), booking.(status := Declined));
    r := Success(());
  }

  method Expire(s: Store, id: Id, now: int) returns (r: Outcome)
    modifies s
    ensures Commits(Act(old(s.Tables()), id, Expiring(now)), old(s.Tables()), s.Tables(), r)
  {
    if id !in s.bookings {
      return Failure(NotFound);
    }
    var booking := s.bookings[id];
    var deadline := None;
    if booking.status == Requested {
      deadline := booking.timers.respondBy;
    } else if booking.status == AwaitingPayment {
      deadline := booking.timers.payBy;
    }
    if deadline.None? {
      return Failure(WrongState);
    }
    if deadline.value > now {
      return Failure(DeadlineNotPassed);
    }
    s.Opens(id);
    s.UpdateBooking(s.Tables(), id, CaseOf(s.Tables(), id), booking.(status := BookingStatus.Expired));
    r := Success(());
  }

  method CheckIn(s: Store, id: Id) returns (r: Outcome)
    modifies s
    ensures Commits(Act(old(s.Tables()), id, CheckingIn), old(s.Tables()), s.Tables(), r)
  {
    if id !in s.bookings {
      return Failure(NotFound);
    }
    if s.bookings[id].status != Confirmed {
      return Failure(WrongState);
    }
    s.Opens(id);
    s.UpdateBooking(s.Tables(), id, CaseOf(s.Tables(), id), s.bookings[id].(status := CheckedIn));
    r := Success(());
  }

  method Complete(s: Store, id: Id) returns (r: Outcome)
    modifies s
    ensures Commits(Act(old(s.Tables()), id, Completing), old(s.Tables()), s.Tables(), r)
  {
    var saved := s.Tables();
    if id !in s.bookings {
      return Failure(NotFound);
    }
    var booking := s.bookings[id];
    if booking.status != CheckedIn {
      return Failure(WrongState);
    }
    s.Opens(id);
    ghost var c := CaseOf(saved, id);
    s.UpdateBooking(saved, id, c, booking.(status := Completed));
    if booking.escrow == Held {
      var released := s.ApplyEvent(saved, id, c.WithStatus(Completed), Release, None, None);
      if released.Failure? {
        s.Rollback(saved, id, c.WithStatus(Completed));
        return Failure(released.error);
      }
    }
    r := Success(());
  }

  // ---- Payment confirmation ----

  lemma OtherTables(db: Db, events: set<Id>, counters: map<YearMonth, nat>, id: Id)
    requires id in db.bookings
    ensures CaseOf(db.(events := events, counters := counters), id) == CaseOf(db, id)
  {
  }

  lemma PutOtherTables(db: Db, events: set<Id>, counters: map<YearMonth, nat>, id: Id, c: Case)
    requires |EntriesOf(db.ledger, id)| <= |c.entries|
    ensures Put(db.(events := events, counters := counters), id, c)
            == Put(db, id, c).(events := events, counters := counters)
  {
  }

  /** What the transaction amounts to, its escrow event apart. */
  lemma ConfirmationIs(saved: Db, id: Id, event: Id, code: Code, c: Case)
    requires id in saved.bookings && saved.bookings[id].status.AwaitingPayment?
    requires c == CaseOf(saved, id).(row := saved.bookings[id].(status := Confirmed, code := Some(code)))
    ensures Operations.RecordConfirmation(saved, id, event, code)
            == match c.ApplyEvent(Charge(c.row.terms.total), Some(event), None)
               case Success(c') =>
                 Success(Put(saved, id, c').(events := saved.events + {event},
                                             counters := saved.counters[code.month := code.number]))
               case Failure(e) => Failure(e)
  {
  }

  /** The second half of the transaction: the tables already hold the event claim and
      the bumped counter. */
  method RecordConfirmation(s: Store, saved: Db, id: Id, booking: Booking, event: Id, code: Code)
    returns (r: Result<bool, Error>)
    requires id in saved.bookings && booking == saved.bookings[id] && booking.status == AwaitingPayment
    requires s.Tables() == saved.(events := saved.events + {event},
                                  counters := saved.counters[code.month := code.number])
    modifies s
    ensures Commits(Operations.RecordConfirmation(saved, id, event, code), saved, s.Tables(), r)
            && (r.Success? ==> r.value)
  {
    var base := s.Tables();
    ghost var c := CaseOf(saved, id);
    OtherTables(saved, s.events, s.counters, id);
    s.Opens(id);
    var confirmed := booking.(status := Confirmed, code := Some(code));
    s.UpdateBooking(base, id, c, confirmed);
    c := c.(row := confirmed);
    var charged := s.ApplyEvent(base, id, c, Charge(booking.terms.total), Some(event), None);
    if charged.Failure? {
      s.Rollback(base, id, c);
      ConfirmationIs(saved, id, event, code, c);
      s.events, s.counters := saved.events, saved.counters;
      return Failure(charged.error);
    }
    ConfirmationIs(saved, id, event, code, c);
    PutOtherTables(saved, s.events, s.counters, id, c.ApplyEvent(Charge(booking.terms.total), Some(event), None).value);
    r := Success(true);
  }

  /** What the transaction comes to once the event is claimed. */
  lemma ConfirmationClaimed(saved: Db, id: Id, event: Id, month: YearMonth)
    requires id in saved.bookings && event !in saved.events
    ensures Operations.ConfirmFromWebhook(saved, id, event, month)
            == if saved.bookings[id].status.AwaitingPayment? then
                 Operations.RecordConfirmation(saved, id, event, Code(month, Counter(saved.counters, month) + 1))
               else Failure(WrongState)
  {
  }

  /** With the event claimed: mint the code, confirm the booking and move the escrow. */
  method ConfirmClaimed(s: Store, saved: Db, id: Id, event: Id, month: YearMonth) returns (r: Result<bool, Error>)
    requires id in saved.bookings && saved.bookings[id].status.AwaitingPayment?
    requires s.Tables() == saved.(events := saved.events + {event})
    modifies s
    ensures var code := Code(month, Counter(saved.counters, month) + 1);
            Commits(Operations.RecordConfirmation(saved, id, event, code), saved, s.Tables(), r)
    ensures r.Success? ==> r.value
  {
    var code := s.IssueBookingCode(month);
    assert code == Code(month, Counter(saved.counters, month) + 1);
    r := RecordConfirmation(s, saved, id, saved.bookings[id], event, code);
  }

  /** Claim the event, mint the code, confirm the booking and move the escrow to HELD
      in one transaction; the result says whether this delivery did it. */
  method ConfirmFromWebhook(s: Store, id: Id, event: Id, month: YearMonth) returns (r: Result<bool, Error>)
    modifies s
    ensures Commits(Operations.ConfirmFromWebhook(old(s.Tables()), id, event, month), old(s.Tables()), s.Tables(), r)
    ensures r.Success? ==> r.value == (event !in old(s.events))
  {
    var saved := s.Tables();
    if id !in s.bookings {
      return Failure(NotFound);
    }
    var claimed := s.ClaimWebhookEvent(event);
    if !claimed {
      assert s.events == saved.events;
      return Success(false);
    }
    ConfirmationClaimed(saved, id, event, month);
    if s.bookings[id].status != AwaitingPayment {
      s.events := saved.events;
      return Failure(WrongState);
    }
    r := ConfirmClaimed(s, saved, id, event, month);
  }

  // ---- Cancellations ----

  method CancelByGuest(s: Store, id: Id, userId: Id, now: int) returns (r: Outcome)
    modifies s
    ensures Commits(Act(old(s.Tables()), id, CancellingAsGuest(userId, now)), old(s.Tables()), s.Tables(), r)
  {
    var saved := s.Tables();
    if id !in s.bookings {
      return Failure(NotFound);
    }
    var booking := s.bookings[id];
    if booking.terms.guest != userId {
      return Failure(NotGuest);
    }
    var prePayment := booking.status == Requested || booking.status == AwaitingPayment;
    if !prePayment && booking.status != Confirmed {
      return Failure(WrongState);
    }
    s.Opens(id);
    ghost var c := CaseOf(saved, id);
    s.UpdateBooking(saved, id, c, booking.(status := CancelledByGuest));
    c := c.WithStatus(CancelledByGuest);
    if booking.status == Confirmed {
      var amounts := ComputeRefund(booking.terms.total, booking.terms.tier, DaysUntil(booking.terms.checkIn, now));
      var recorded := s.RecordRefund(saved, id, c, amounts);
      if recorded.Failure? {
        s.Rollback(saved, id, c);
        return recorded;
      }
      c := c.RecordRefund(amounts).value;
      var settled := s.ApplyEvent(saved, id, c, Settle(amounts.refund, RefundGuestTier), None, None);
      if settled.Failure? {
        s.Rollback(saved, id, c);
        return Failure(settled.error);
      }
    }
    r := Success(());
  }

  method CancelByHost(s: Store, id: Id, hostId: Id) returns (r: Outcome)
    modifies s
    ensures Commits(Act(old(s.Tables()), id, CancellingAsHost(hostId)), old(s.Tables()), s.Tables(), r)
  {
    var saved := s.Tables();
    if id !in s.bookings {
      return Failure(NotFound);
    }
    var booking := s.bookings[id];
    if booking.terms.host != hostId {
      return Failure(NotHost);
    }
    if booking.status != Confirmed {
      return Failure(WrongState);
    }
    s.Opens(id);
    ghost var c := CaseOf(saved, id);
    s.UpdateBooking(saved, id, c, booking.(status := CancelledByHost));
    c := c.WithStatus(CancelledByHost);
    var amounts := Breakdown(booking.terms.total, booking.terms.total);
    var recorded := s.RecordRefund(saved, id, c, amounts);
    if recorded.Failure? {
      s.Rollback(saved, id, c);
      return recorded;
    }
    c := c.RecordRefund(amounts).value;
    var settled := s.ApplyEvent(saved, id, c, Settle(booking.terms.total, RefundHostCancelled), None, None);
    if settled.Failure? {
      s.Rollback(saved, id, c);
      return Failure(settled.error);
    }
    s.IssueStrike(Strike(booking.terms.host, Some(id), HostCancelled));
    r := Success(());
  }

  // ---- Disputes ----

  method OpenDispute(s: Store, id: Id, userId: Id, disputeId: Id) returns (r: Outcome)
    modifies s
    ensures Commits(Act(old(s.Tables()), id, OpeningDispute(userId, disputeId)), old(s.Tables()), s.Tables(), r)
  {
    var saved := s.Tables();
    if id !in s.bookings {
      return Failure(NotFound);
    }
    var booking := s.bookings[id];
    if booking.terms.guest != userId {
      return Failure(NotGuest);
    }
    if booking.status != CheckedIn {
      return Failure(WrongState);
    }
    s.Opens(id);
    ghost var c := CaseOf(saved, id);
    s.UpdateBooking(saved, id, c, booking.(status := Disputed));
    c := c.WithStatus(Disputed);
    if id in s.disputes {
      s.Rollback(saved, id, c);
      return Failure(DuplicateRow);
    }
    var dispute := Dispute(disputeId, Open, None, None, None);
    s.WriteDispute(saved, id, c, dispute);
    c := c.(dispute := Some(dispute));
    var frozen := s.ApplyEvent(saved, id, c, Freeze(HoldDisputeOpened), Some(disputeId), None);
    if frozen.Failure? {
      s.Rollback(saved, id, c);
      return Failure(frozen.error);
    }
    r := Success(());
  }

  /** Setting the status before or after an escrow event makes no difference. */
  lemma StatusCommutes(c: Case, event: EscrowEvent, causeRef: Option<nat>, status: BookingStatus)
    ensures c.WithStatus(status).ApplyEvent(event, causeRef, None)
            == match c.ApplyEvent(event, causeRef, None)
               case Success(c') => Success(c'.WithStatus(status))
               case Failure(e) => Failure(e)
  {
  }

  /** A decision carried out from the case `c`: the pot settled, the status set, and the
      host struck if the guest got everything; or nothing done. */
  ghost predicate Decided(saved: Db, id: Id, c: Case, slice: int, admin: Id, res: Resolution, after: Db, r: Outcome)
    requires id in saved.bookings && c.Extends(CaseOf(saved, id))
  {
    match c.ApplyEvent(Settle(slice, ResolutionCause(res)), Some(admin), None)
    case Failure(e) => r == Failure(e) && after == saved
    case Success(c') =>
      && r.Success?
      && var done := Put(saved, id, c'.WithStatus(StatusAfter(res)));
         after == if res.RefundAll? then IssueStrike(done, Strike(c.row.terms.host, Some(id), HostCancelled)) else done
  }

  /** It is the transition, if the transition settles the same pot and sets the same
      status. */
  lemma DecidedIsAct(saved: Db, id: Id, a: CaseAction, c: Case, slice: int, admin: Id, res: Resolution, after: Db,
                     r: Outcome)
    requires id in saved.bookings && c.Extends(CaseOf(saved, id)) && Decided(saved, id, c, slice, admin, res, after, r)
    requires c.row == saved.bookings[id] && (HostFault(a) <==> res.RefundAll?)
    requires CaseNext(CaseOf(saved, id), a)
             == match c.ApplyEvent(Settle(slice, ResolutionCause(res)), Some(admin), None)
                case Success(c') => Success(c'.WithStatus(StatusAfter(res)))
                case Failure(e) => Failure(e)
    ensures Commits(Act(saved, id, a), saved, after, r)
  {
    if CaseNext(CaseOf(saved, id), a).Success? {
      TermsNeverChange(CaseOf(saved, id), a, CaseNext(CaseOf(saved, id), a).value);
    }
  }

  /** The end of both decisions. */
  method Decide(s: Store, saved: Db, id: Id, ghost c: Case, slice: int, admin: Id, res: Resolution) returns (r: Outcome)
    requires s.Holds(saved, id, c)
    modifies s
    ensures Decided(saved, id, c, slice, admin, res, s.Tables(), r)
  {
    var settled := s.ApplyEvent(saved, id, c, Settle(slice, ResolutionCause(res)), Some(admin), None);
    if settled.Failure? {
      s.Rollback(saved, id, c);
      return Failure(settled.error);
    }
    ghost var c' := c.ApplyEvent(Settle(slice, ResolutionCause(res)), Some(admin), None).value;
    s.UpdateBooking(saved, id, c', s.bookings[id].(status := StatusAfter(res)));
    if res.RefundAll? {
      s.IssueStrike(Strike(s.bookings[id].terms.host, Some(id), HostCancelled));
    }
    r := Success(());
  }

  predicate ResolutionRows(c: Case, b: Case, res: Resolution) {
    && c.dispute.Some?
    && var decided := c.(dispute := Some(ResolvedAs(c.dispute.value, res)));
       if res.ReleaseAll? then b == decided
       else decided.RecordRefund(Breakdown(c.row.terms.total, GuestSlice(c.row.terms.total, res))) == Success(b)
  }

  /** The decision on an open dispute, with the status set last. */
  lemma ResolutionIs(c: Case, b: Case, admin: Id, res: Resolution)
    requires c.row.status.Disputed? && ResolutionRows(c, b, res) && c.dispute.value.status.Open?
    ensures var slice := GuestSlice(c.row.terms.total, res);
            CaseNext(c, ResolvingDispute(admin, res))
            == match b.ApplyEvent(Settle(slice, ResolutionCause(res)), Some(admin), None)
               case Success(c') => Success(c'.WithStatus(StatusAfter(res)))
               case Failure(e) => Failure(e)
    ensures b.row == c.row
  {
    StatusCommutes(b, Settle(GuestSlice(c.row.terms.total, res), ResolutionCause(res)), Some(admin), StatusAfter(res));
  }

  lemma ResolutionRefused(c: Case, admin: Id, res: Resolution)
    requires c.row.status.Disputed? && c.dispute.Some? && c.dispute.value.status.Open?
    requires c.refund.Some? && !res.ReleaseAll?
    ensures CaseNext(c, ResolvingDispute(admin, res)) == Failure(DuplicateRow)
  {
  }

  /** The rows of the decision: the dispute, and the refund unless all is released. */
  method WriteResolution(s: Store, saved: Db, id: Id, res: Resolution) returns (r: Outcome, ghost b: Case)
    requires id in saved.bookings && id in saved.disputes && s.Holds(saved, id, CaseOf(saved, id))
    modifies s
    ensures r.Success? ==> s.Holds(saved, id, b) && ResolutionRows(CaseOf(saved, id), b, res)
    ensures r.Failure? ==> s.Tables() == saved && r == Failure(DuplicateRow) && id in saved.refunds && !res.ReleaseAll?
  {
    b := CaseOf(saved, id);
    var decided := ResolvedAs(s.disputes[id], res);
    s.WriteDispute(saved, id, b, decided);
    b := b.(dispute := Some(decided));
    if !res.ReleaseAll? {
      var total := s.bookings[id].terms.total;
      var amounts := Breakdown(total, GuestSlice(total, res));
      r := s.RecordRefund(saved, id, b, amounts);
      if r.Failure? {
        s.Rollback(saved, id, b);
        return;
      }
      b := b.RecordRefund(amounts).value;
    }
    r := Success(());
  }

  method ResolveDispute(s: Store, id: Id, admin: Id, res: Resolution) returns (r: Outcome)
    modifies s
    ensures Commits(Act(old(s.Tables()), id, ResolvingDispute(admin, res)), old(s.Tables()), s.Tables(), r)
  {
    var saved := s.Tables();
    if id !in s.bookings {
      return Failure(NotFound);
    }
    var booking := s.bookings[id];
    if booking.status != Disputed {
      return Failure(WrongState);
    }
    if id !in s.disputes || s.disputes[id].status != Open {
      return Failure(DisputeNotOpen);
    }
    s.Opens(id);
    var slice := GuestSlice(booking.terms.total, res);
    ghost var c;
    r, c := WriteResolution(s, saved, id, res);
    if r.Failure? {
      ResolutionRefused(CaseOf(saved, id), admin, res);
      return;
    }
    ResolutionIs(CaseOf(saved, id), c, admin, res);
    r := Decide(s, saved, id, c, slice, admin, res);
    DecidedIsAct(saved, id, ResolvingDispute(admin, res), c, slice, admin, res, s.Tables(), r);
  }

  /** The guard an appeal fails first. */
  function AppealRefusal(c: Case, userId: Id, side: Side): Option<Error> {
    if c.dispute.None? || c.dispute.value.status.Open? then Some(WrongState)
    else if side.GuestSide? && c.row.terms.guest != userId then Some(NotGuest)
    else if side.HostSide? && c.row.terms.host != userId then Some(NotHost)
    else if (if side.GuestSide? then c.dispute.value.guestAppealedAt else c.dispute.value.hostAppealedAt).Some? then
      Some(AlreadyAppealed)
    else if !c.row.escrow.Held? && !c.row.escrow.Releasable? then Some(AppealNotOpen)
    else if c.refund.Some? && c.refund.value.opnRefundId.Some? then Some(AppealNotOpen)
    else None
  }

  function Appealed(d: Dispute, side: Side, now: int): Dispute {
    if side.GuestSide? then d.(guestAppealedAt := Some(now)) else d.(hostAppealedAt := Some(now))
  }

  lemma AppealingIs(c: Case, userId: Id, side: Side, now: int)
    ensures CaseNext(c, Appealing(userId, side, now))
            == match AppealRefusal(c, userId, side)
               case Some(error) => Failure(error)
               case None =>
                 var d := Appealed(c.dispute.value, side, now);
                 c.(dispute := Some(d)).ApplyEvent(Freeze(HoldDisputeOpened), Some(d.id), None)
  {
  }

  method AppealDispute(s: Store, id: Id, userId: Id, side: Side, now: int) returns (r: Outcome)
    modifies s
    ensures Commits(Act(old(s.Tables()), id, Appealing(userId, side, now)), old(s.Tables()), s.Tables(), r)
  {
    var saved := s.Tables();
    if id !in s.bookings {
      return Failure(NotFound);
    }
    var booking := s.bookings[id];
    AppealingIs(CaseOf(saved, id), userId, side, now);
    if id !in s.disputes || s.disputes[id].status == Open {
      return Failure(WrongState);
    }
    var dispute := s.disputes[id];
    if side == GuestSide && booking.terms.guest != userId {
      return Failure(NotGuest);
    }
    if side == HostSide && booking.terms.host != userId {
      return Failure(NotHost);
    }
    var already := if side == GuestSide then dispute.guestAppealedAt else dispute.hostAppealedAt;
    if already.Some? {
      return Failure(AlreadyAppealed);
    }
    if booking.escrow != Held && booking.escrow != Releasable {
      return Failure(AppealNotOpen);
    }
    if id in s.refunds && s.refunds[id].opnRefundId.Some? {
      return Failure(AppealNotOpen);
    }
    s.Opens(id);
    ghost var c := CaseOf(saved, id);
    var appealed := Appealed(dispute, side, now);
    s.WriteDispute(saved, id, c, appealed);
    c := c.(dispute := Some(appealed));
    var frozen := s.ApplyEvent(saved, id, c, Freeze(HoldDisputeOpened), Some(dispute.id), None);
    if frozen.Failure? {
      s.Rollback(saved, id, c);
      return Failure(frozen.error);
    }
    r := Success(());
  }

  predicate AppealRows(c: Case, b: Case, slice: int, res: Resolution) {
    && c.dispute.Some?
    && var decided := c.(dispute := Some(ResolvedAs(c.dispute.value, res)));
       b == if res.ReleaseAll? then decided
            else decided.UpsertRefund(Breakdown(c.row.terms.total, c.PriorRefund() + slice))
  }

  /** The decision on an appeal, with the status set last. */
  lemma AppealIs(c: Case, b: Case, admin: Id, res: Resolution)
    requires c.row.escrow.Frozen? && AppealRows(c, b, GuestSlice(c.CurrentPosition().amount, res), res)
    ensures var slice := GuestSlice(c.CurrentPosition().amount, res);
            CaseNext(c, ResolvingAppeal(admin, res))
            == match b.ApplyEvent(Settle(slice, ResolutionCause(res)), Some(admin), None)
               case Success(c') => Success(c'.WithStatus(StatusAfter(res)))
               case Failure(e) => Failure(e)
    ensures b.row == c.row
  {
  }

  /** The rows of the decision: the dispute, and the refund, which stays cumulative. */
  method WriteAppealDecision(s: Store, saved: Db, id: Id, slice: int, res: Resolution) returns (ghost b: Case)
    requires id in saved.bookings && id in saved.disputes && s.Holds(saved, id, CaseOf(saved, id))
    modifies s
    ensures s.Holds(saved, id, b) && AppealRows(CaseOf(saved, id), b, slice, res)
  {
    var prior := if id in s.refunds then s.refunds[id].amounts.refund else 0;
    var amounts := Breakdown(s.bookings[id].terms.total, prior + slice);
    var decided := ResolvedAs(s.disputes[id], res);
    b := CaseOf(saved, id);
    assert prior == b.PriorRefund();
    s.WriteDispute(saved, id, b, decided);
    b := b.(dispute := Some(decided));
    if !res.ReleaseAll? {
      s.UpsertRefund(saved, id, b, amounts);
      b := b.UpsertRefund(amounts);
    }
  }

  /** Divides only what is still frozen. */
  method ResolveAppeal(s: Store, id: Id, admin: Id, res: Resolution) returns (r: Outcome)
    modifies s
    ensures Commits(Act(old(s.Tables()), id, ResolvingAppeal(admin, res)), old(s.Tables()), s.Tables(), r)
  {
    var saved := s.Tables();
    if id !in s.bookings {
      return Failure(NotFound);
    }
    if id !in s.disputes {
      return Failure(WrongState);
    }
    if s.bookings[id].escrow != Frozen {
      return Failure(AppealNotOpen);
    }
    s.Opens(id);
    var position := s.CurrentPosition(id);
    var slice := GuestSlice(position.amount, res);
    ghost var c := WriteAppealDecision(s, saved, id, slice, res);
    AppealIs(CaseOf(saved, id), c, admin, res);
    r := Decide(s, saved, id, c, slice, admin, res);
    DecidedIsAct(saved, id, ResolvingAppeal(admin, res), c, slice, admin, res, s.Tables(), r);
  }
}
