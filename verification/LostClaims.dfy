/** A run in which a payment is marked REFUNDED and the guest never gets it back: the
    handler dies between claiming the refund and calling the gateway. */
module LostClaims {
  import opened Money
  import opened Codes
  import opened Bookings
  import opened Database
  import opened Operations
  import opened Effects
  import opened Runs
  import opened Webhook
  import opened WebhookSafety
  import opened LateDeliveries
  import opened RefundableCharges

  /** Too late to be confirmed: the hold expires before the gateway's event arrives. */
  function PaidTooLate(id: Id, terms: Terms, charge: Id, event: Id): seq<SysStep> {
    GuestPays(id, terms, 0, 0, charge, event) + [Elsewhere(Acting(id, Expiring(HOUR)))]
  }

  lemma ExpiredView(db: Db, id: Id, after: Db)
    requires id in db.bookings && CaseNext(CaseOf(db, id), Expiring(HOUR)).Success?
    requires after == Step(db, Acting(id, Expiring(HOUR)))
    ensures Past(after, id) && after.payments == db.payments && after.events == db.events
  {
    ActingTakes(db, id, Expiring(HOUR));
    ActIsAccepted(db, id, Expiring(HOUR));
    NextBeside(db, Acting(id, Expiring(HOUR)), after);
    assert CaseOf(after, id).row == after.bookings[id];
  }

  lemma PaidTooLateRun(id: Id, terms: Terms, charge: Id, event: Id) returns (sys: Sys)
    requires FitsColumn(terms.total) && FitsColumn(terms.commission)
    ensures sys == SysRun(START, PaidTooLate(id, terms, charge, event))
    ensures sys.handlers == map[] && sys.refunds == map[] && sys.lost == {}
    ensures PaidAndPast(sys, charge) && sys.charges[charge].event == event && event !in sys.db.events
    ensures RowPending(sys.db, charge)
  {
    var paid := PaidSys(id, terms, 0, charge, event);
    PaymentRun(id, terms, 0, 0, charge, event);
    Append(START, GuestPays(id, terms, 0, 0, charge, event), Elsewhere(Acting(id, Expiring(HOUR))));
    ElsewhereStep(paid, Acting(id, Expiring(HOUR)));
    assert CaseOf(paid.db, id).row == InstantRow(terms, 0);
    ExpiredView(paid.db, id, Step(paid.db, Acting(id, Expiring(HOUR))));
    sys := SysRun(START, PaidTooLate(id, terms, charge, event));
  }

  /** The delivery up to its claim, and the crash. */
  function ClaimAndDie(h: nat, event: Id, charge: Id, month: YearMonth): seq<SysStep> {
    [Deliver(h, event, charge)] + [Fetch(h)] + [Confirm(h, month)] + [Claim(h)] + [Crash(h)]
  }

  lemma ClaimAndDieRun(sys: Sys, h: nat, event: Id, charge: Id, month: YearMonth)
    ensures SysRun(sys, ClaimAndDie(h, event, charge, month))
            == Advance(Advance(Advance(Advance(Advance(sys, Deliver(h, event, charge)), Fetch(h)),
                Confirm(h, month)), Claim(h)), Crash(h))
  {
    OneStep(sys, Deliver(h, event, charge));
    Append(sys, [Deliver(h, event, charge)], Fetch(h));
    Append(sys, [Deliver(h, event, charge)] + [Fetch(h)], Confirm(h, month));
    Append(sys, [Deliver(h, event, charge)] + [Fetch(h)] + [Confirm(h, month)], Claim(h));
    Append(sys, [Deliver(h, event, charge)] + [Fetch(h)] + [Confirm(h, month)] + [Claim(h)], Crash(h));
  }

  lemma CrashStep(sys: Sys, h: nat, charge: Id)
    requires h in sys.handlers && sys.handlers[h] == ToRefund(charge)
    ensures Advance(sys, Crash(h)) == Finish(sys.(lost := sys.lost + {charge}), h)
  {
  }

  lemma DiesWithItsClaim(sys: Sys, event: Id, charge: Id, month: YearMonth) returns (after: Sys)
    requires sys.handlers == map[] && sys.refunds == map[] && event !in sys.db.events
    requires PaidAndPast(sys, charge) && RowPending(sys.db, charge)
    ensures after == SysRun(sys, ClaimAndDie(0, event, charge, month))
    ensures RowRefunded(after.db, charge) && Refunds(after, charge) == 0 && charge in after.lost
    ensures Sane(after) && !Refundable(after, charge) && charge in after.charges
  {
    ClaimAndDieRun(sys, 0, event, charge, month);
    LateSteps(sys, 0, event, charge, month);
    var claiming := Goto(sys, 0, ToClaim(charge));
    ClaimStep(claiming, 0, charge);
    var claimed := AfterClaim(claiming, 0, charge);
    CrashStep(claimed, 0, charge);
    after := Advance(claimed, Crash(0));
    assert after.handlers == map[];
  }

  /** For every booking: the guest pays, the hold expires, the delivery finds the charge
      stranded and claims its refund, and the handler dies. The payment says REFUNDED and
      the gateway refunds nothing, in every continuation. */
  lemma MarkedAndNeverRefunded(id: Id, terms: Terms, charge: Id, event: Id, month: YearMonth)
    requires FitsColumn(terms.total) && FitsColumn(terms.commission)
    ensures var sys := SysRun(START, PaidTooLate(id, terms, charge, event) + ClaimAndDie(0, event, charge, month));
            && RowRefunded(sys.db, charge) && charge in sys.lost
            && forall rest :: Refunds(SysRun(sys, rest), charge) == 0
  {
    var late := PaidTooLateRun(id, terms, charge, event);
    var after := DiesWithItsClaim(late, event, charge, month);
    SysRunConcat(START, PaidTooLate(id, terms, charge, event), ClaimAndDie(0, event, charge, month));
    forall rest
      ensures Refunds(SysRun(after, rest), charge) == 0
    {
      NeverRefundedAgain(after, rest, charge);
    }
  }
}
