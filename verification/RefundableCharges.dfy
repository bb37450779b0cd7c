/** Exactly when a paid charge of a booking past confirming can still be sent back as
    stranded, whatever event ids the deliveries carry; and a charge that is marked REFUNDED
    and never is. */
module RefundableCharges {
  import opened Wrappers
  import opened Codes
  import opened Bookings
  import opened Database
  import opened Operations
  import opened Effects
  import opened Runs
  import opened Webhook
  import opened WebhookSafety
  import opened LateDeliveries

  // ---- What every run keeps, with honest deliveries or without ----

  predicate HandlerSane(sys: Sys, p: Handler) {
    match p
    case ToMark(_, status) => !status.Pending? && !status.RefundedPayment?
    case ToCreate(id, _) => id in sys.db.bookings
    case ToRecord(charge, id) => id in sys.db.bookings && charge in sys.charges
    case _ => true
  }

  ghost predicate Sane(sys: Sys) {
    forall h :: h in sys.handlers ==> HandlerSane(sys, sys.handlers[h])
  }

  predicate Grows(sys: Sys, after: Sys) {
    && (forall id :: id in sys.db.bookings ==> id in after.db.bookings)
    && (forall c :: c in sys.charges ==>
          c in after.charges && (sys.charges[c].state.ChargePending? || after.charges[c] == sys.charges[c]))
  }

  /** Every handler after the step was there before, or is sane in its new place. */
  predicate HandlersFollow(sys: Sys, after: Sys) {
    forall h :: h in after.handlers ==>
      (h in sys.handlers && after.handlers[h] == sys.handlers[h]) || HandlerSane(after, after.handlers[h])
  }

  lemma SaneFollows(sys: Sys, after: Sys)
    requires Sane(sys) && Grows(sys, after) && HandlersFollow(sys, after)
    ensures Sane(after)
  {
    forall h | h in after.handlers
      ensures HandlerSane(after, after.handlers[h])
    {
      assert h in sys.handlers && after.handlers[h] == sys.handlers[h] ==> HandlerSane(sys, sys.handlers[h]);
    }
  }

  predicate Arrives(step: SysStep) {
    step.Deliver? || step.Fetch? || step.Crash?
  }

  predicate Refunding(step: SysStep) {
    step.CallGateway? || step.RollBack?
  }

  predicate Marks(step: SysStep) {
    step.Mark? || step.Claim?
  }

  lemma DeliveryGrows(sys: Sys, h: nat, event: Id, charge: Id)
    ensures var after := Advance(sys, Deliver(h, event, charge)); Grows(sys, after) && HandlersFollow(sys, after)
  {
  }

  /** A fetch leads to confirming, or to marking the payment FAILED or EXPIRED, or ends. */
  predicate Fetched(sys: Sys, after: Sys, h: nat) {
    || after == sys || after == Finish(sys, h)
    || (h in after.handlers && after == Goto(sys, h, after.handlers[h])
        && (after.handlers[h].ToConfirm?
            || (after.handlers[h].ToMark? && (after.handlers[h].status.Failed? || after.handlers[h].status.Lapsed?))))
  }

  lemma FetchLeads(sys: Sys, h: nat)
    ensures Fetched(sys, Advance(sys, Fetch(h)), h)
  {
  }

  lemma FetchedGrows(sys: Sys, after: Sys, h: nat)
    requires Fetched(sys, after, h)
    ensures Grows(sys, after) && HandlersFollow(sys, after)
  {
  }

  lemma FetchGrows(sys: Sys, h: nat)
    ensures var after := Advance(sys, Fetch(h)); Grows(sys, after) && HandlersFollow(sys, after)
  {
    FetchLeads(sys, h);
    FetchedGrows(sys, Advance(sys, Fetch(h)), h);
  }

  lemma CrashGrows(sys: Sys, h: nat)
    ensures var after := Advance(sys, Crash(h)); Grows(sys, after) && HandlersFollow(sys, after)
  {
  }

  lemma ArrivalGrows(sys: Sys, step: SysStep)
    requires Arrives(step)
    ensures Grows(sys, Advance(sys, step)) && HandlersFollow(sys, Advance(sys, step))
  {
    match step
    case Deliver(h, event, charge) => DeliveryGrows(sys, h, event, charge);
    case Fetch(h) => FetchGrows(sys, h);
    case Crash(h) => CrashGrows(sys, h);
  }

  lemma RefundingGrows(sys: Sys, step: SysStep)
    requires Refunding(step)
    ensures Grows(sys, Advance(sys, step)) && HandlersFollow(sys, Advance(sys, step))
  {
  }

  lemma MarkGrows(sys: Sys, step: SysStep)
    requires Marks(step)
    ensures Grows(sys, Advance(sys, step)) && HandlersFollow(sys, Advance(sys, step))
  {
  }

  lemma ConfirmStepGrows(sys: Sys, h: nat, month: YearMonth)
    ensures Grows(sys, Advance(sys, Confirm(h, month))) && HandlersFollow(sys, Advance(sys, Confirm(h, month)))
  {
    if h in sys.handlers && sys.handlers[h].ToConfirm? {
      var p := sys.handlers[h];
      ConfirmStep(sys, h, month);
      if ConfirmFromWebhook(sys.db, p.bookingId, p.event, month).Success? {
        ConfirmGrows(sys.db, p.bookingId, p.event, month,
            ConfirmFromWebhook(sys.db, p.bookingId, p.event, month).value);
      }
    }
  }

  lemma ConfirmGrows(db: Db, id: Id, event: Id, month: YearMonth, after: Db)
    requires ConfirmFromWebhook(db, id, event, month) == Success(after)
    ensures after.payments == db.payments && db.bookings.Keys <= after.bookings.Keys
  {
  }

  lemma BeginningGrows(sys: Sys, h: nat, id: Id, keepsRow: bool)
    ensures var after := Advance(sys, BeginPayment(h, id, keepsRow)); Grows(sys, after) && HandlersFollow(sys, after)
  {
  }

  lemma CreationGrows(sys: Sys, h: nat, charge: Id, event: Id)
    requires Sane(sys)
    ensures var after := Advance(sys, CreateCharge(h, charge, event)); Grows(sys, after) && HandlersFollow(sys, after)
  {
    if h in sys.handlers {
      assert HandlerSane(sys, sys.handlers[h]);
    }
  }

  lemma RecordingGrows(sys: Sys, step: SysStep)
    requires step.RecordRow? || step.GatewaySettles?
    ensures Grows(sys, Advance(sys, step)) && HandlersFollow(sys, Advance(sys, step))
  {
  }

  lemma ElsewhereGrows(sys: Sys, action: Action)
    requires IsElsewhere(action)
    ensures var after := sys.(db := Step(sys.db, action));
            Grows(sys, after) && HandlersFollow(sys, after) && after.db.payments == sys.db.payments
  {
    forall id | id in sys.db.bookings
      ensures id in Step(sys.db, action).bookings
    {
      BookingsStay(sys.db, action, id);
    }
    if Next(sys.db, action).Success? {
      NextBeside(sys.db, action, Step(sys.db, action));
    }
  }

  lemma ElsewhereStep(sys: Sys, action: Action)
    ensures Advance(sys, Elsewhere(action)) == if IsElsewhere(action) then sys.(db := Step(sys.db, action)) else sys
  {
  }

  lemma StepGrows(sys: Sys, step: SysStep)
    requires Sane(sys)
    ensures Grows(sys, Advance(sys, step)) && Sane(Advance(sys, step))
  {
    if Arrives(step) {
      ArrivalGrows(sys, step);
    } else if Refunding(step) {
      RefundingGrows(sys, step);
    } else if Marks(step) {
      MarkGrows(sys, step);
    } else if step.Confirm? {
      ConfirmStepGrows(sys, step.h, step.month);
    } else if step.Elsewhere? {
      ElsewhereStep(sys, step.action);
      if IsElsewhere(step.action) {
        ElsewhereGrows(sys, step.action);
      }
    } else if step.BeginPayment? {
      BeginningGrows(sys, step.h, step.bookingId, step.keepsRow);
    } else if step.CreateCharge? {
      CreationGrows(sys, step.h, step.charge, step.event);
    } else {
      RecordingGrows(sys, step);
    }
    SaneFollows(sys, Advance(sys, step));
  }

  lemma {:induction false} RunIsSane(sys: Sys, steps: seq<SysStep>)
    requires Sane(sys)
    ensures Sane(SysRun(sys, steps))
  {
    if steps != [] {
      RunIsSane(sys, steps[..|steps| - 1]);
      StepGrows(SysRun(sys, steps[..|steps| - 1]), steps[|steps| - 1]);
    }
  }

  // ---- When a charge can still be sent back ----

  /** The handler is about to refund the charge, or to make its row PENDING again or for
      the first time. */
  predicate Revives(db: Db, p: Handler, charge: Id) {
    || p == ToRefund(charge)
    || (p == ToRollBack(charge) && RowRefunded(db, charge))
    || (p.ToRecord? && p.charge == charge && charge !in db.payments)
  }

  /** Its row is PENDING, or some handler is about to refund it or to bring that about. */
  ghost predicate Refundable(sys: Sys, charge: Id) {
    RowPending(sys.db, charge) || exists h :: h in sys.handlers && Revives(sys.db, sys.handlers[h], charge)
  }

  /** The charge's row is as it was, or has been given a final status. */
  predicate RowSettles(before: Db, after: Db, charge: Id) {
    || Lookup(after.payments, charge) == Lookup(before.payments, charge)
    || (charge in after.payments && !RowPending(after, charge) && !RowRefunded(after, charge))
  }

  /** Nothing in the step helps the charge to a refund. */
  predicate Calm(sys: Sys, after: Sys, charge: Id) {
    && RowSettles(sys.db, after.db, charge) && Refunds(after, charge) == Refunds(sys, charge)
    && forall h :: h in after.handlers ==>
         (h in sys.handlers && after.handlers[h] == sys.handlers[h]) || !Revives(after.db, after.handlers[h], charge)
  }

  lemma CalmKeeps(sys: Sys, after: Sys, charge: Id)
    requires !Refundable(sys, charge) && Calm(sys, after, charge)
    ensures !Refundable(after, charge)
  {
    forall h | h in after.handlers
      ensures !Revives(after.db, after.handlers[h], charge)
    {
      assert h in sys.handlers ==> !Revives(sys.db, sys.handlers[h], charge);
    }
  }

  lemma DeliveryIsCalm(sys: Sys, h: nat, event: Id, delivered: Id, charge: Id)
    requires !Refundable(sys, charge)
    ensures Calm(sys, Advance(sys, Deliver(h, event, delivered)), charge)
  {
  }

  lemma FetchIsCalm(sys: Sys, h: nat, charge: Id)
    requires !Refundable(sys, charge)
    ensures Calm(sys, Advance(sys, Fetch(h)), charge)
  {
    FetchLeads(sys, h);
    FetchedIsCalm(sys, Advance(sys, Fetch(h)), h, charge);
  }

  lemma FetchedIsCalm(sys: Sys, after: Sys, h: nat, charge: Id)
    requires !Refundable(sys, charge) && Fetched(sys, after, h)
    ensures Calm(sys, after, charge)
  {
  }

  lemma CrashIsCalm(sys: Sys, h: nat, charge: Id)
    requires !Refundable(sys, charge)
    ensures Calm(sys, Advance(sys, Crash(h)), charge)
  {
  }

  lemma ArrivalIsCalm(sys: Sys, step: SysStep, charge: Id)
    requires !Refundable(sys, charge) && Arrives(step)
    ensures Calm(sys, Advance(sys, step), charge)
  {
    match step
    case Deliver(h, event, delivered) => DeliveryIsCalm(sys, h, event, delivered, charge);
    case Fetch(h) => FetchIsCalm(sys, h, charge);
    case Crash(h) => CrashIsCalm(sys, h, charge);
  }

  lemma MarkIsCalm(sys: Sys, h: nat, charge: Id)
    requires Sane(sys) && !Refundable(sys, charge)
    ensures Calm(sys, Advance(sys, Mark(h)), charge)
  {
    if h in sys.handlers {
      assert HandlerSane(sys, sys.handlers[h]);
    }
  }

  lemma ClaimIsCalm(sys: Sys, h: nat, charge: Id)
    requires !Refundable(sys, charge)
    ensures Calm(sys, Advance(sys, Claim(h)), charge)
  {
  }

  lemma CallIsCalm(sys: Sys, h: nat, ok: bool, charge: Id)
    requires !Refundable(sys, charge)
    ensures Calm(sys, Advance(sys, CallGateway(h, ok)), charge)
  {
    if h in sys.handlers {
      assert !Revives(sys.db, sys.handlers[h], charge);
    }
  }

  lemma RollBackIsCalm(sys: Sys, h: nat, charge: Id)
    requires !Refundable(sys, charge)
    ensures Calm(sys, Advance(sys, RollBack(h)), charge)
  {
    if h in sys.handlers {
      assert !Revives(sys.db, sys.handlers[h], charge);
    }
  }

  lemma ConfirmIsCalm(sys: Sys, h: nat, month: YearMonth, charge: Id)
    requires !Refundable(sys, charge)
    ensures Calm(sys, Advance(sys, Confirm(h, month)), charge)
  {
    if h in sys.handlers && sys.handlers[h].ToConfirm? {
      var p := sys.handlers[h];
      ConfirmStep(sys, h, month);
      if ConfirmFromWebhook(sys.db, p.bookingId, p.event, month).Success? {
        ConfirmGrows(sys.db, p.bookingId, p.event, month,
            ConfirmFromWebhook(sys.db, p.bookingId, p.event, month).value);
      }
    }
  }

  lemma BeginningIsCalm(sys: Sys, h: nat, id: Id, keepsRow: bool, charge: Id)
    requires !Refundable(sys, charge)
    ensures Calm(sys, Advance(sys, BeginPayment(h, id, keepsRow)), charge)
  {
  }

  lemma CreationIsCalm(sys: Sys, h: nat, created: Id, event: Id, charge: Id)
    requires !Refundable(sys, charge) && charge in sys.charges
    ensures Calm(sys, Advance(sys, CreateCharge(h, created, event)), charge)
  {
  }

  lemma RecordingIsCalm(sys: Sys, step: SysStep, charge: Id)
    requires !Refundable(sys, charge) && (step.RecordRow? || step.GatewaySettles?)
    ensures Calm(sys, Advance(sys, step), charge)
  {
    if step.RecordRow? && step.h in sys.handlers {
      assert !Revives(sys.db, sys.handlers[step.h], charge);
    }
  }

  lemma StepIsCalm(sys: Sys, step: SysStep, charge: Id)
    requires Sane(sys) && !Refundable(sys, charge) && charge in sys.charges
    ensures Calm(sys, Advance(sys, step), charge)
  {
    if Arrives(step) {
      ArrivalIsCalm(sys, step, charge);
    } else if step.Mark? {
      MarkIsCalm(sys, step.h, charge);
    } else if step.Claim? {
      ClaimIsCalm(sys, step.h, charge);
    } else if step.CallGateway? {
      CallIsCalm(sys, step.h, step.ok, charge);
    } else if step.RollBack? {
      RollBackIsCalm(sys, step.h, charge);
    } else if step.Confirm? {
      ConfirmIsCalm(sys, step.h, step.month, charge);
    } else if step.Elsewhere? {
      ElsewhereStep(sys, step.action);
      if IsElsewhere(step.action) {
        ElsewhereGrows(sys, step.action);
      }
    } else if step.BeginPayment? {
      BeginningIsCalm(sys, step.h, step.bookingId, step.keepsRow, charge);
    } else if step.CreateCharge? {
      CreationIsCalm(sys, step.h, step.charge, step.event, charge);
    } else {
      RecordingIsCalm(sys, step, charge);
    }
  }

  lemma {:induction false} NeverRefundedAgain(sys: Sys, steps: seq<SysStep>, charge: Id)
    requires Sane(sys) && !Refundable(sys, charge) && charge in sys.charges
    ensures var after := SysRun(sys, steps);
            !Refundable(after, charge) && charge in after.charges && Refunds(after, charge) == Refunds(sys, charge)
  {
    if steps != [] {
      var front := steps[..|steps| - 1];
      NeverRefundedAgain(sys, front, charge);
      RunIsSane(sys, front);
      StepGrows(SysRun(sys, front), steps[|steps| - 1]);
      StepIsCalm(SysRun(sys, front), steps[|steps| - 1], charge);
      CalmKeeps(SysRun(sys, front), SysRun(sys, steps), charge);
    }
  }

  // ---- And how it is sent back ----

  /** Paid, with its booking past confirming. */
  predicate PaidAndPast(sys: Sys, charge: Id) {
    && charge in sys.charges && sys.charges[charge].state.ChargeSuccessful?
    && Past(sys.db, sys.charges[charge].bookingId)
  }

  lemma PendingIsRefunded(sys: Sys, charge: Id) returns (steps: seq<SysStep>)
    requires PaidAndPast(sys, charge) && RowPending(sys.db, charge)
    ensures Refunds(SysRun(sys, steps), charge) == Refunds(sys, charge) + 1
  {
    var h := FreshKey(sys.handlers.Keys);
    var event := FreshKey(sys.db.events);
    var month: YearMonth := CalendarMonth(0, 1);
    steps := Delivery(h, event, charge, month);
    LateDelivery(sys, h, event, charge, month);
  }

  lemma RollBackStep(sys: Sys, h: nat, charge: Id)
    requires h in sys.handlers && sys.handlers[h] == ToRollBack(charge) && RowRefunded(sys.db, charge)
    ensures var after := Advance(sys, RollBack(h));
            RowPending(after.db, charge) && after.refunds == sys.refunds && SameCases(after.db, sys.db)
            && after.charges == sys.charges
  {
  }

  lemma RecordStep(sys: Sys, h: nat, charge: Id, id: Id)
    requires h in sys.handlers && sys.handlers[h] == ToRecord(charge, id)
    requires charge !in sys.db.payments && id in sys.db.bookings
    ensures var after := Advance(sys, RecordRow(h));
            RowPending(after.db, charge) && after.refunds == sys.refunds && SameCases(after.db, sys.db)
            && after.charges == sys.charges
  {
  }

  lemma SendBack(sys: Sys, charge: Id) returns (steps: seq<SysStep>)
    requires Sane(sys) && PaidAndPast(sys, charge) && Refundable(sys, charge)
    ensures Refunds(SysRun(sys, steps), charge) == Refunds(sys, charge) + 1
  {
    if RowPending(sys.db, charge) {
      steps := PendingIsRefunded(sys, charge);
    } else {
      var h :| h in sys.handlers && Revives(sys.db, sys.handlers[h], charge);
      if sys.handlers[h].ToRefund? {
        steps := [CallGateway(h, true)];
        OneStep(sys, CallGateway(h, true));
        CallStep(sys, h);
      } else {
        steps := ReviveAndRefund(sys, h, charge);
      }
    }
  }

  lemma ReviveAndRefund(sys: Sys, h: nat, charge: Id) returns (steps: seq<SysStep>)
    requires Sane(sys) && PaidAndPast(sys, charge) && h in sys.handlers && Revives(sys.db, sys.handlers[h], charge)
    requires !sys.handlers[h].ToRefund?
    ensures Refunds(SysRun(sys, steps), charge) == Refunds(sys, charge) + 1
  {
    var step := if sys.handlers[h].ToRollBack? then RollBack(h) else RecordRow(h);
    assert HandlerSane(sys, sys.handlers[h]);
    if sys.handlers[h].ToRollBack? {
      RollBackStep(sys, h, charge);
    } else {
      RecordStep(sys, h, charge, sys.handlers[h].bookingId);
    }
    OneStep(sys, step);
    var rest := PendingIsRefunded(Advance(sys, step), charge);
    steps := [step] + rest;
    SysRunConcat(sys, [step], rest);
  }

  /** After any run, honest or not: a paid charge of a booking past confirming, be it the
      one its ledger records or another, can still be sent back as stranded exactly when
      its row is PENDING, or a handler holds its claim and has not called the gateway, or is
      about to give the claim back, or is about to write the row. */
  lemma MayBeRefundedIff(before: seq<SysStep>, charge: Id)
    requires PaidAndPast(SysRun(START, before), charge)
    ensures var sys := SysRun(START, before);
            (exists steps :: Refunds(SysRun(sys, steps), charge) > Refunds(sys, charge)) <==> Refundable(sys, charge)
  {
    var sys := SysRun(START, before);
    RunIsSane(START, before);
    if Refundable(sys, charge) {
      var steps := SendBack(sys, charge);
    } else {
      forall steps
        ensures Refunds(SysRun(sys, steps), charge) == Refunds(sys, charge)
      {
        NeverRefundedAgain(sys, steps, charge);
      }
    }
  }
}
