/** The webhook handler on the store, run without interruption, and its agreement with
    the handler the protocol cuts into steps. */
module ChargeEvents {
  import opened Wrappers
  import opened Codes
  import opened Bookings
  import opened Database
  import opened Operations
  import opened Persistence
  import opened Webhook
  import opened LateDeliveries
  import Transitions

  /** `Thrown` is the error that makes the route answer 500 and the gateway retry. */
  datatype ChargeOutcome = Confirmed | Refunded | Failed | Lapsed | Ignored | Thrown

  /** What a delivery leaves in the tables. */
  function Delivered(db: Db, event: Id, charge: Id, c: GatewayCharge, month: YearMonth, ok: bool): Db {
    match c.state
    case ChargeSuccessful =>
      (match ConfirmFromWebhook(db, c.bookingId, event, month)
       case Success(after) => MarkPayment(after, charge, Successful)
       case Failure(e) =>
         if e.WrongState? && RowPending(db, charge) && ok then MarkPayment(db, charge, RefundedPayment) else db)
    case ChargeFailed => MarkPayment(db, charge, PaymentStatus.Failed)
    case ChargeExpired => MarkPayment(db, charge, PaymentStatus.Lapsed)
    case ChargePending => db
  }

  /** What a delivery answers: a booking that is not there is left to reconciliation, any
      other refusal makes the gateway retry. */
  function Answer(db: Db, event: Id, charge: Id, c: GatewayCharge, month: YearMonth, ok: bool): ChargeOutcome {
    match c.state
    case ChargeSuccessful =>
      (match ConfirmFromWebhook(db, c.bookingId, event, month)
       case Success(_) => ChargeOutcome.Confirmed
       case Failure(e) =>
         if e.WrongState? then (if RowPending(db, charge) && !ok then Thrown else Refunded)
         else if e.NotFound? then Ignored
         else Thrown)
    case ChargeFailed => ChargeOutcome.Failed
    case ChargeExpired => ChargeOutcome.Lapsed
    case ChargePending => Ignored
  }

  /** Status by status and refusal by refusal: what a delivery leaves and what it answers. */
  lemma DeliveryRows(db: Db, event: Id, charge: Id, c: GatewayCharge, month: YearMonth, ok: bool)
    ensures var left, answer := Delivered(db, event, charge, c, month, ok), Answer(db, event, charge, c, month, ok);
            var confirmed := ConfirmFromWebhook(db, c.bookingId, event, month);
            var pending := charge in db.payments && db.payments[charge].status == Pending;
            && (c.state == ChargePending ==> left == db && answer == Ignored)
            && (c.state == ChargeFailed ==>
                left == MarkPayment(db, charge, PaymentStatus.Failed) && answer == ChargeOutcome.Failed)
            && (c.state == ChargeExpired ==>
                left == MarkPayment(db, charge, PaymentStatus.Lapsed) && answer == ChargeOutcome.Lapsed)
            && (c.state == ChargeSuccessful ==>
                && (confirmed.Success? ==>
                    left == MarkPayment(confirmed.value, charge, Successful) && answer == ChargeOutcome.Confirmed)
                && (confirmed == Failure(WrongState) ==>
                    && left == (if pending && ok then MarkPayment(db, charge, RefundedPayment) else db)
                    && answer == (if pending && !ok then Thrown else Refunded))
                && (confirmed == Failure(NotFound) ==> left == db && answer == Ignored)
                && (confirmed.Failure? && confirmed.error != WrongState && confirmed.error != NotFound ==>
                    left == db && answer == Thrown))
  {
  }

  /** Update the rows with this charge id; there is at most one. */
  method MarkRow(s: Store, charge: Id, status: PaymentStatus)
    modifies s`payments
    ensures s.Tables() == MarkPayment(old(s.Tables()), charge, status)
  {
    if charge in s.payments {
      s.payments := s.payments[charge := s.payments[charge].(status := status)];
    }
  }

  /** Compare and swap; the count says whether this caller won. */
  method SwapRow(s: Store, charge: Id, from: PaymentStatus, to: PaymentStatus) returns (count: nat)
    modifies s`payments
    ensures s.Tables() == SwapPayment(old(s.Tables()), charge, from, to)
    ensures count == if charge in old(s.payments) && old(s.payments[charge]).status == from then 1 else 0
  {
    count := 0;
    if charge in s.payments && s.payments[charge].status == from {
      s.payments := s.payments[charge := s.payments[charge].(status := to)];
      count := 1;
    }
  }

  /** Claim the refund, call the gateway, and give the claim back if the call fails. */
  method RefundStrandedCharge(s: Store, charge: Id, ok: bool) returns (outcome: ChargeOutcome)
    modifies s`payments
    ensures s.Tables() == if RowPending(old(s.Tables()), charge) && ok
                          then MarkPayment(old(s.Tables()), charge, RefundedPayment)
                          else old(s.Tables())
    ensures outcome == if RowPending(old(s.Tables()), charge) && !ok then Thrown else Refunded
  {
    var count := SwapRow(s, charge, Pending, RefundedPayment);
    if count == 0 {
      return Refunded;
    }
    if !ok {
      count := SwapRow(s, charge, RefundedPayment, Pending);
      return Thrown;
    }
    return Refunded;
  }

  /** Re-fetch the charge and act on its authoritative status. */
  method ApplyChargeEvent(s: Store, event: Id, charge: Id, c: GatewayCharge, month: YearMonth, ok: bool)
    returns (outcome: ChargeOutcome)
    modifies s
    ensures s.Tables() == Delivered(old(s.Tables()), event, charge, c, month, ok)
    ensures outcome == Answer(old(s.Tables()), event, charge, c, month, ok)
  {
    match c.state {
      case ChargeSuccessful =>
        var confirmed := Transitions.ConfirmFromWebhook(s, c.bookingId, event, month);
        if confirmed.Failure? {
          match confirmed.error {
            case WrongState => outcome := RefundStrandedCharge(s, charge, ok);
            case NotFound => outcome := Ignored;
            case _ => outcome := Thrown;
          }
          return;
        }
        MarkRow(s, charge, Successful);
        outcome := ChargeOutcome.Confirmed;
      case ChargeFailed =>
        MarkRow(s, charge, PaymentStatus.Failed);
        outcome := ChargeOutcome.Failed;
      case ChargeExpired =>
        MarkRow(s, charge, PaymentStatus.Lapsed);
        outcome := ChargeOutcome.Lapsed;
      case ChargePending =>
        outcome := Ignored;
    }
  }

  /** How the guest pays; an absent token or return address is empty. */
  datatype PaymentMethod = PromptPay | Card(token: string, returnUri: string)

  predicate CanCharge(how: PaymentMethod) {
    how.Card? ==> how.token != "" && how.returnUri != ""
  }

  /** Which refusal comes first. */
  function ChargeRefusal(db: Db, id: Id, how: PaymentMethod, answer: Option<Id>): Option<Error> {
    if id !in db.bookings then Some(NotFound)
    else if !db.bookings[id].status.AwaitingPayment? then Some(WrongState)
    else if !CanCharge(how) then Some(CardTokenRequired)
    else if answer.None? then Some(GatewayFailed)
    else if answer.value in db.payments then Some(DuplicateRow)
    else None
  }

  /** Each refusal and what it is for, in the order they are asked. */
  lemma ChargeRefusals(db: Db, id: Id, how: PaymentMethod, answer: Option<Id>)
    ensures var refusal := ChargeRefusal(db, id, how, answer);
            var awaiting := id in db.bookings && db.bookings[id].status == AwaitingPayment;
            var payable := awaiting && (how == PromptPay || (how.Card? && how.token != "" && how.returnUri != ""));
            && (refusal == Some(NotFound) <==> id !in db.bookings)
            && (refusal == Some(WrongState) <==> id in db.bookings && !awaiting)
            && (refusal == Some(CardTokenRequired) <==> awaiting && !payable)
            && (refusal == Some(GatewayFailed) <==> payable && answer == None)
            && (refusal == Some(DuplicateRow) <==> payable && answer.Some? && answer.value in db.payments)
            && (refusal == None <==> payable && answer.Some? && answer.value !in db.payments)
  {
  }

  /** The guards, the gateway call, which answers with a charge id or fails, and the new
      payment row. A refusal writes nothing. */
  method CreateChargeForBooking(s: Store, id: Id, how: PaymentMethod, answer: Option<Id>) returns (r: Outcome)
    modifies s`payments
    ensures match ChargeRefusal(old(s.Tables()), id, how, answer)
            case Some(error) => r == Failure(error) && s.Tables() == old(s.Tables())
            case None => r.Success? && AddPayment(old(s.Tables()), answer.value, id) == Success(s.Tables())
  {
    if id !in s.bookings {
      return Failure(NotFound);
    }
    if s.bookings[id].status != AwaitingPayment {
      return Failure(WrongState);
    }
    match how {
      case Card(token, returnUri) =>
        if token == "" || returnUri == "" {
          return Failure(CardTokenRequired);
        }
      case PromptPay =>
    }
    if answer.None? {
      return Failure(GatewayFailed);
    }
    if answer.value in s.payments {
      return Failure(DuplicateRow);
    }
    s.payments := s.payments[answer.value := Database.Payment(id, Pending)];
    r := Success(());
  }

  /** Left alone, the protocol's opening of a charge does what the method does: a PENDING row
      for a booking awaiting payment, and nothing for any other. */
  lemma ChargingAlone(sys: Sys, h: nat, id: Id, charge: Id, event: Id)
    requires h !in sys.handlers && charge !in sys.charges && !EventInUse(sys.charges, event)
    ensures var after := Advance(Advance(Advance(sys, BeginPayment(h, id, true)), CreateCharge(h, charge, event)),
                                 RecordRow(h));
            after == if id in sys.db.bookings && sys.db.bookings[id].status == AwaitingPayment then
                       sys.(charges := sys.charges[charge := GatewayCharge(id, event, ChargePending)],
                            db := match AddPayment(sys.db, charge, id) { case Success(db) => db case Failure(_) =>
                                sys.db })
                     else sys
  {
    if id in sys.db.bookings && sys.db.bookings[id].status == AwaitingPayment {
      var begun := Goto(sys, h, ToCreate(id, true));
      BeginStep(sys, h, id);
      var created := Goto(begun.(charges := sys.charges[charge := GatewayCharge(id, event, ChargePending)]), h,
                          ToRecord(charge, id));
      CreateStep(begun, h, id, charge, event);
      RecordRowStep(created, h, id, charge);
      assert created.handlers - {h} == sys.handlers;
    } else {
      NothingToCharge(sys, h, id, charge, event);
    }
  }

  lemma BeginStep(sys: Sys, h: nat, id: Id)
    requires h !in sys.handlers && id in sys.db.bookings && sys.db.bookings[id].status == AwaitingPayment
    ensures Advance(sys, BeginPayment(h, id, true)) == Goto(sys, h, ToCreate(id, true))
  {
  }

  lemma CreateStep(sys: Sys, h: nat, id: Id, charge: Id, event: Id)
    requires h in sys.handlers && sys.handlers[h] == ToCreate(id, true)
    requires charge !in sys.charges && !EventInUse(sys.charges, event)
    ensures Advance(sys, CreateCharge(h, charge, event))
            == Goto(sys.(charges := sys.charges[charge := GatewayCharge(id, event, ChargePending)]), h,
                ToRecord(charge, id))
  {
  }

  lemma RecordRowStep(sys: Sys, h: nat, id: Id, charge: Id)
    requires h in sys.handlers && sys.handlers[h] == ToRecord(charge, id)
    ensures Advance(sys, RecordRow(h))
            == Finish(sys.(db :=
                match AddPayment(sys.db, charge, id) { case Success(db) => db case Failure(_) => sys.db }), h)
  {
  }

  lemma NothingToCharge(sys: Sys, h: nat, id: Id, charge: Id, event: Id)
    requires h !in sys.handlers && !(id in sys.db.bookings && sys.db.bookings[id].status == AwaitingPayment)
    ensures Advance(Advance(Advance(sys, BeginPayment(h, id, true)), CreateCharge(h, charge, event)),
            RecordRow(h)) == sys
  {
    assert Advance(sys, BeginPayment(h, id, true)) == sys;
    assert Advance(sys, CreateCharge(h, charge, event)) == sys;
  }

  // ---- Agreement with the protocol ----

  /** The remaining steps of a handler that has fetched its charge, in order; those that
      do not apply change nothing. */
  function Remaining(sys: Sys, h: nat, month: YearMonth, ok: bool): Sys {
    var confirmed := Advance(sys, Confirm(h, month));
    var called := Advance(Advance(confirmed, Claim(h)), CallGateway(h, ok));
    Advance(Advance(called, RollBack(h)), Mark(h))
  }

  lemma Idle(sys: Sys, h: nat, month: YearMonth, ok: bool)
    requires h !in sys.handlers
    ensures Advance(sys, Confirm(h, month)) == Advance(sys, Claim(h)) == Advance(sys, CallGateway(h, ok)) == sys
    ensures Advance(sys, RollBack(h)) == Advance(sys, Mark(h)) == sys
  {
  }

  /** A handler about to mark goes straight to its mark. */
  lemma MarkFinishes(sys: Sys, h: nat, charge: Id, status: PaymentStatus, ok: bool)
    requires h in sys.handlers && sys.handlers[h] == ToMark(charge, status)
    ensures Advance(Advance(Advance(Advance(sys, Claim(h)), CallGateway(h, ok)), RollBack(h)), Mark(h))
            == Finish(sys.(db := MarkPayment(sys.db, charge, status)), h)
  {
  }

  /** A handler that found the charge stranded refunds it, gives up its claim, or finds
      nothing to claim. */
  lemma StrandedFinishes(sys: Sys, h: nat, charge: Id, month: YearMonth, ok: bool)
    requires h in sys.handlers && sys.handlers[h] == ToClaim(charge)
    ensures var after := Advance(Advance(Advance(Advance(sys, Claim(h)), CallGateway(h, ok)), RollBack(h)), Mark(h));
            && after.db == (if RowPending(sys.db, charge) && ok then MarkPayment(sys.db, charge, RefundedPayment)
                            else sys.db)
            && h !in after.handlers
  {
    ClaimStep(sys, h, charge);
    if RowPending(sys.db, charge) {
      var claimed := AfterClaim(sys, h, charge);
      var called := AfterGateway(claimed, h, charge, ok);
      assert Advance(claimed, CallGateway(h, ok)) == called;
      if ok {
        Idle(called, h, month, ok);
      } else {
        assert Advance(called, RollBack(h)) == AfterRollBack(called, h, charge);
        Idle(AfterRollBack(called, h, charge), h, month, ok);
        assert SwapPayment(claimed.db, charge, RefundedPayment, Pending).payments == sys.db.payments;
      }
    } else {
      Idle(Finish(sys, h), h, month, ok);
    }
  }

  /** Left alone, the protocol's handler does what the method does, and ends. */
  lemma UninterruptedDelivery(sys: Sys, h: nat, event: Id, charge: Id, month: YearMonth, ok: bool)
    requires h !in sys.handlers && charge in sys.charges
    ensures var after := Remaining(AfterFetch(Goto(sys, h, Arrived(event, charge)), h, event, charge), h, month, ok);
            && after.db == Delivered(sys.db, event, charge, sys.charges[charge], month, ok)
            && h !in after.handlers
  {
    var c := sys.charges[charge];
    var fetched := AfterFetch(Goto(sys, h, Arrived(event, charge)), h, event, charge);
    match c.state
    case ChargeSuccessful =>
      ConfirmStep(fetched, h, month);
      var confirmed := AfterConfirm(fetched, h, fetched.handlers[h], month);
      match ConfirmFromWebhook(sys.db, c.bookingId, event, month) {
        case Success(after) => MarkFinishes(confirmed, h, charge, Successful, ok);
        case Failure(e) =>
          if e.WrongState? {
            StrandedFinishes(confirmed, h, charge, month, ok);
          } else {
            Idle(confirmed, h, month, ok);
          }
      }
    case ChargeFailed => MarkFinishes(fetched, h, charge, PaymentStatus.Failed, ok);
    case ChargeExpired => MarkFinishes(fetched, h, charge, PaymentStatus.Lapsed, ok);
    case ChargePending => Idle(fetched, h, month, ok);
  }
}
