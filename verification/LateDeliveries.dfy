/** Deliveries that arrive when their booking can no longer be confirmed: the guest's
    money goes back, and why every charge must have one event id only. */
module LateDeliveries {
  import opened Wrappers
  import opened Money
  import opened Codes
  import opened Bookings
  import opened CaseInvariants
  import opened CaseLaws
  import opened Database
  import opened Operations
  import opened Effects
  import opened Webhook
  import opened WebhookSafety
  import opened WebhookRuns

  lemma {:induction false} SysRunConcat(sys: Sys, first: seq<SysStep>, second: seq<SysStep>)
    ensures SysRun(sys, first + second) == SysRun(SysRun(sys, first), second)
  {
    if second == [] {
      assert first + second == first;
    } else {
      SysRunConcat(sys, first, second[..|second| - 1]);
      assert (first + second)[..|first + second| - 1] == first + second[..|second| - 1];
    }
  }

  lemma OneStep(sys: Sys, step: SysStep)
    ensures SysRun(sys, [step]) == Advance(sys, step)
  {
  }

  lemma Append(sys: Sys, steps: seq<SysStep>, step: SysStep)
    ensures SysRun(sys, steps + [step]) == Advance(SysRun(sys, steps), step)
  {
  }

  /** One uninterrupted delivery whose gateway call works. */
  function Delivery(h: nat, event: Id, charge: Id, month: YearMonth): seq<SysStep> {
    [Deliver(h, event, charge)] + [Fetch(h)] + [Confirm(h, month)] + [Claim(h)] + [CallGateway(h, true)]
  }

  lemma RefusedConfirm(db: Db, id: Id, event: Id, month: YearMonth)
    requires Past(db, id) && event !in db.events
    ensures ConfirmFromWebhook(db, id, event, month) == Failure(WrongState)
  {
  }

  lemma DeliveryRun(sys: Sys, h: nat, event: Id, charge: Id, month: YearMonth)
    ensures SysRun(sys, Delivery(h, event, charge, month))
            == Advance(Advance(Advance(Advance(Advance(sys, Deliver(h, event, charge)), Fetch(h)),
                Confirm(h, month)), Claim(h)), CallGateway(h, true))
  {
    OneStep(sys, Deliver(h, event, charge));
    Append(sys, [Deliver(h, event, charge)], Fetch(h));
    Append(sys, [Deliver(h, event, charge)] + [Fetch(h)], Confirm(h, month));
    Append(sys, [Deliver(h, event, charge)] + [Fetch(h)] + [Confirm(h, month)], Claim(h));
    Append(sys, [Deliver(h, event, charge)] + [Fetch(h)] + [Confirm(h, month)] + [Claim(h)], CallGateway(h, true));
  }

  lemma FetchSteps(sys: Sys, h: nat, event: Id, charge: Id)
    requires h !in sys.handlers && charge in sys.charges && sys.charges[charge].state.ChargeSuccessful?
    ensures Advance(Advance(sys, Deliver(h, event, charge)), Fetch(h))
            == Goto(sys, h, ToConfirm(event, charge, sys.charges[charge].bookingId))
  {
  }

  lemma ConfirmStep(sys: Sys, h: nat, month: YearMonth)
    requires h in sys.handlers && sys.handlers[h].ToConfirm?
    ensures Advance(sys, Confirm(h, month)) == AfterConfirm(sys, h, sys.handlers[h], month)
  {
  }

  /** The first three steps end with the charge held to be stranded. */
  lemma LateSteps(sys: Sys, h: nat, event: Id, charge: Id, month: YearMonth)
    requires h !in sys.handlers && charge in sys.charges && sys.charges[charge].state.ChargeSuccessful?
    requires event !in sys.db.events && Past(sys.db, sys.charges[charge].bookingId)
    ensures Advance(Advance(Advance(sys, Deliver(h, event, charge)), Fetch(h)), Confirm(h, month))
            == Goto(sys, h, ToClaim(charge))
  {
    var fetched := Goto(sys, h, ToConfirm(event, charge, sys.charges[charge].bookingId));
    FetchSteps(sys, h, event, charge);
    RefusedConfirm(sys.db, sys.charges[charge].bookingId, event, month);
    ConfirmStep(fetched, h, month);
  }

  lemma ClaimStep(sys: Sys, h: nat, charge: Id)
    requires h in sys.handlers && sys.handlers[h] == ToClaim(charge)
    ensures Advance(sys, Claim(h)) == AfterClaim(sys, h, charge)
  {
  }

  lemma CallStep(sys: Sys, h: nat)
    ensures Advance(sys, CallGateway(h, true))
            == if h in sys.handlers && sys.handlers[h].ToRefund? then AfterGateway(sys, h, sys.handlers[h].charge, true)
               else sys
  {
  }

  predicate RowPending(db: Db, charge: Id) {
    charge in db.payments && db.payments[charge].status.Pending?
  }

  /** The last two steps refund the charge if its row is PENDING. */
  lemma ClaimAndCall(sys: Sys, h: nat, charge: Id)
    requires h in sys.handlers && sys.handlers[h] == ToClaim(charge)
    ensures var after := Advance(Advance(sys, Claim(h)), CallGateway(h, true));
            && Refunds(after, charge) == Refunds(sys, charge) + (if RowPending(sys.db, charge) then 1 else 0)
            && SameCases(after.db, sys.db) && after.charges == sys.charges
  {
    ClaimStep(sys, h, charge);
    CallStep(AfterClaim(sys, h, charge), h);
  }

  /** A delivery under an unclaimed event id, for a successful charge of a booking that
      is past confirming, sends the money back exactly if the payment row is PENDING. */
  lemma LateDelivery(sys: Sys, h: nat, event: Id, charge: Id, month: YearMonth)
    requires h !in sys.handlers && charge in sys.charges && sys.charges[charge].state.ChargeSuccessful?
    requires event !in sys.db.events && Past(sys.db, sys.charges[charge].bookingId)
    ensures var after := SysRun(sys, Delivery(h, event, charge, month));
            && Refunds(after, charge) == Refunds(sys, charge) + (if RowPending(sys.db, charge) then 1 else 0)
            && SameCases(after.db, sys.db) && after.charges == sys.charges
  {
    DeliveryRun(sys, h, event, charge, month);
    LateSteps(sys, h, event, charge, month);
    ClaimAndCall(Goto(sys, h, ToClaim(charge)), h, charge);
  }

  // ---- A second event id for the charge that was recorded ----

  /** A booking is held, its one charge opened and recorded, and the guest pays. */
  function GuestPays(id: Id, terms: Terms, now: int, h: nat, charge: Id, event: Id): seq<SysStep> {
    [Elsewhere(HoldingInstantly(id, terms, now, false))] + [BeginPayment(h, id, true)]
        + [CreateCharge(h, charge, event)]
    + [RecordRow(h)] + [GatewaySettles(charge, ChargeSuccessful)]
  }

  /** The state the payment leads to. */
  function PaidSys(id: Id, terms: Terms, now: int, charge: Id, event: Id): Sys {
    START.(db := EMPTY.(bookings := map[id := InstantRow(terms, now)],
                        payments := map[charge := Database.Payment(id, Pending)]),
           charges := map[charge := GatewayCharge(id, event, ChargeSuccessful)])
  }

  lemma HoldStep(id: Id, terms: Terms, now: int)
    requires FitsColumn(terms.total) && FitsColumn(terms.commission)
    ensures Advance(START, Elsewhere(HoldingInstantly(id, terms, now, false)))
            == START.(db := EMPTY.(bookings := map[id := InstantRow(terms, now)]))
  {
  }

  lemma OpenSteps(sys: Sys, id: Id, h: nat, charge: Id, event: Id)
    requires sys.handlers == map[] && sys.charges == map[] && sys.db.payments == map[]
    requires id in sys.db.bookings && sys.db.bookings[id].status.AwaitingPayment?
    ensures Advance(Advance(Advance(sys, BeginPayment(h, id, true)), CreateCharge(h, charge, event)), RecordRow(h))
            == sys.(db := sys.db.(payments := map[charge := Database.Payment(id, Pending)]),
                    charges := map[charge := GatewayCharge(id, event, ChargePending)])
  {
    var begun := Goto(sys, h, ToCreate(id, true));
    var created := Goto(sys.(charges := map[charge := GatewayCharge(id, event, ChargePending)]), h,
        ToRecord(charge, id));
    assert Advance(sys, BeginPayment(h, id, true)) == begun;
    assert Advance(begun, CreateCharge(h, charge, event)) == created;
    assert Advance(created, RecordRow(h)) == AfterRecord(created, h, ToRecord(charge, id));
  }

  lemma PaymentRun(id: Id, terms: Terms, now: int, h: nat, charge: Id, event: Id)
    requires FitsColumn(terms.total) && FitsColumn(terms.commission)
    ensures SysRun(START, GuestPays(id, terms, now, h, charge, event)) == PaidSys(id, terms, now, charge, event)
  {
    var held := [Elsewhere(HoldingInstantly(id, terms, now, false))];
    var begun := held + [BeginPayment(h, id, true)];
    var created := begun + [CreateCharge(h, charge, event)];
    var recorded := created + [RecordRow(h)];
    OneStep(START, held[0]);
    Append(START, held, BeginPayment(h, id, true));
    Append(START, begun, CreateCharge(h, charge, event));
    Append(START, created, RecordRow(h));
    Append(START, recorded, GatewaySettles(charge, ChargeSuccessful));
    HoldStep(id, terms, now);
    OpenSteps(SysRun(START, held), id, h, charge, event);
    Settled(SysRun(START, recorded), id, terms, now, charge, event);
  }

  lemma Settled(sys: Sys, id: Id, terms: Terms, now: int, charge: Id, event: Id)
    requires sys == PaidSys(id, terms, now, charge, event).(
                      charges := map[charge := GatewayCharge(id, event, ChargePending)])
    ensures Advance(sys, GatewaySettles(charge, ChargeSuccessful)) == PaidSys(id, terms, now, charge, event)
  {
  }

  /** The delivery that confirms, up to but not including the payment mark. */
  function Confirmation(h: nat, event: Id, charge: Id, month: YearMonth): seq<SysStep> {
    [Deliver(h, event, charge)] + [Fetch(h)] + [Confirm(h, month)]
  }

  lemma PaidConfirms(id: Id, terms: Terms, now: int, charge: Id, event: Id, month: YearMonth) returns (after: Db)
    requires FitsColumn(terms.total) && 0 < terms.total
    ensures ConfirmFromWebhook(PaidSys(id, terms, now, charge, event).db, id, event, month) == Success(after)
    ensures ChargedBy(after, id, event) && Past(after, id)
    ensures after.events == {event} && after.payments == PaidSys(id, terms, now, charge, event).db.payments
  {
    var db := PaidSys(id, terms, now, charge, event).db;
    assert CaseOf(db, id) == NewCase(id, InstantRow(terms, now));
    NewCaseIsOk(id, InstantRow(terms, now));
    ConfirmAcceptedIff(CaseOf(db, id), event, Code(month, 1));
    after := ConfirmFromWebhook(db, id, event, month).value;
    ConfirmCharges(db, id, event, month, after);
    ConfirmFrame(db, id, event, month, after);
  }

  lemma ConfirmationRun(sys: Sys, h: nat, id: Id, event: Id, charge: Id, month: YearMonth, after: Db)
    requires sys.handlers == map[] && charge in sys.charges
             && sys.charges[charge] == GatewayCharge(id, event, ChargeSuccessful)
    requires ConfirmFromWebhook(sys.db, id, event, month) == Success(after)
    ensures SysRun(sys, Confirmation(h, event, charge, month)) == Goto(sys.(db := after), h, ToMark(charge, Successful))
  {
    OneStep(sys, Deliver(h, event, charge));
    Append(sys, [Deliver(h, event, charge)], Fetch(h));
    Append(sys, [Deliver(h, event, charge)] + [Fetch(h)], Confirm(h, month));
    FetchSteps(sys, h, event, charge);
    ConfirmStep(Goto(sys, h, ToConfirm(event, charge, id)), h, month);
  }

  /** Paid and confirmed, the handler about to mark the payment. */
  lemma ConfirmedRun(id: Id, terms: Terms, now: int, charge: Id, event: Id, month: YearMonth) returns (after: Db)
    requires FitsColumn(terms.total) && FitsColumn(terms.commission) && 0 < terms.total
    ensures ChargedBy(after, id, event) && Past(after, id) && after.events == {event} && RowPending(after, charge)
    ensures SysRun(START, GuestPays(id, terms, now, 0, charge, event) + Confirmation(0, event, charge, month))
            == Goto(PaidSys(id, terms, now, charge, event).(db := after), 0, ToMark(charge, Successful))
  {
    PaymentRun(id, terms, now, 0, charge, event);
    after := PaidConfirms(id, terms, now, charge, event, month);
    ConfirmationRun(PaidSys(id, terms, now, charge, event), 0, id, event, charge, month, after);
    SysRunConcat(START, GuestPays(id, terms, now, 0, charge, event), Confirmation(0, event, charge, month));
  }

  /** Without one event id per charge the protocol is not safe: for every booking, a
      second event id for its paid and confirmed charge, delivered before the payment is
      marked, refunds the very charge the ledger records. */
  lemma SecondEventRefundsTheRecordedCharge(id: Id, terms: Terms, now: int, charge: Id, event: Id, second: Id,
                                            month: YearMonth)
    requires FitsColumn(terms.total) && FitsColumn(terms.commission) && 0 < terms.total && second != event
    ensures var steps := GuestPays(id, terms, now, 0, charge, event) + Confirmation(0, event, charge, month)
                         + Delivery(1, second, charge, month);
            var sys := SysRun(START, steps);
            Recorded(sys, charge) && Refunds(sys, charge) == 1
  {
    var after := ConfirmedRun(id, terms, now, charge, event, month);
    var confirmed := GuestPays(id, terms, now, 0, charge, event) + Confirmation(0, event, charge, month);
    SysRunConcat(START, confirmed, Delivery(1, second, charge, month));
    LateDelivery(SysRun(START, confirmed), 1, second, charge, month);
  }
}
