/** The protocol's invariant over every run, and what follows from it. */
module WebhookRuns {
  import opened Wrappers
  import opened Codes
  import opened Bookings
  import opened CaseInvariants
  import opened Database
  import opened Operations
  import opened Effects
  import opened Runs
  import opened Webhook
  import opened WebhookSafety

  // ---- Steps that move bookings ----

  /** The events claimed by the step, if any: `event` belongs to one charge, which is
      the one its booking's ledger now starts with, and which was not stranded. */
  ghost predicate ClaimsEvent(sys: Sys, after: Db, event: Option<Id>) {
    && after.events == (if event.Some? then sys.db.events + {event.value} else sys.db.events)
    && (event.Some? ==>
          && EventInUse(sys.charges, event.value)
          && forall c :: c in sys.charges && sys.charges[c].event == event.value ==>
               && sys.charges[c].state.ChargeSuccessful? && ChargedBy(after, sys.charges[c].bookingId, event.value)
               && !Past(sys.db, sys.charges[c].bookingId))
  }

  lemma StrandedStays(sys: Sys, after: Db, event: Option<Id>, charge: Id)
    requires Stranded(sys, charge) && ClaimsEvent(sys, after, event)
    requires Onward(sys.db, after, sys.charges[charge].bookingId)
    ensures Stranded(sys.(db := after), charge)
  {
  }

  lemma HandlerMovesOn(sys: Sys, after: Db, event: Option<Id>, p: Handler)
    requires HandlerOk(sys, p) && ClaimsEvent(sys, after, event) && (forall id :: Onward(sys.db, after, id))
    ensures HandlerOk(sys.(db := after), p)
  {
    match p
    case ToClaim(charge) => StrandedStays(sys, after, event, charge);
    case ToRefund(charge) => StrandedStays(sys, after, event, charge);
    case ToRollBack(charge) => StrandedStays(sys, after, event, charge);
    case ToCreate(id, _) => assert Onward(sys.db, after, id);
    case _ =>
  }

  lemma ChargeMovesOn(sys: Sys, after: Db, event: Option<Id>, charge: Id)
    requires charge in sys.charges && ChargeOk(sys.db, sys.charges[charge]) && ClaimsEvent(sys, after, event)
    requires Onward(sys.db, after, sys.charges[charge].bookingId)
    ensures ChargeOk(after, sys.charges[charge])
  {
  }

  lemma ChargesMoveOn(sys: Sys, after: Db, event: Option<Id>)
    requires ChargesOk(sys) && ClaimsEvent(sys, after, event) && (forall id :: Onward(sys.db, after, id))
    ensures ChargesOk(sys.(db := after))
  {
    forall c | c in sys.charges
      ensures ChargeOk(after, sys.charges[c])
    {
      assert Onward(sys.db, after, sys.charges[c].bookingId);
      ChargeMovesOn(sys, after, event, c);
    }
  }

  lemma RefundsMoveOn(sys: Sys, after: Db, event: Option<Id>)
    requires RefundsOk(sys) && ClaimsEvent(sys, after, event) && (forall id :: Onward(sys.db, after, id))
    requires after.payments == sys.db.payments
    ensures RefundsOk(sys.(db := after))
  {
    forall c: Id
      ensures RefundOk(sys.(db := after), c)
    {
      assert RefundOk(sys, c);
      if RowRefunded(sys.db, c) {
        assert Onward(sys.db, after, sys.charges[c].bookingId);
        StrandedStays(sys, after, event, c);
      }
    }
  }

  lemma HandlersMoveOn(sys: Sys, after: Db, event: Option<Id>)
    requires HandlersOk(sys) && ClaimsEvent(sys, after, event) && (forall id :: Onward(sys.db, after, id))
    ensures HandlersOk(sys.(db := after))
  {
    forall h | h in sys.handlers
      ensures HandlerOk(sys.(db := after), sys.handlers[h])
    {
      HandlerMovesOn(sys, after, event, sys.handlers[h]);
    }
  }

  /** The bookings moved on, and at most one event was claimed with them. */
  lemma DbMovesOn(sys: Sys, after: Db, event: Option<Id>)
    requires Inv(sys) && LedgersOk(after) && ClaimsEvent(sys, after, event)
    requires (forall id :: Onward(sys.db, after, id)) && after.payments == sys.db.payments
    ensures Inv(sys.(db := after))
  {
    ChargesMoveOn(sys, after, event);
    HandlersMoveOn(sys, after, event);
    RefundsMoveOn(sys, after, event);
  }

  lemma LedgersMoveOn(db: Db, action: Action, after: Db)
    requires LedgersOk(db) && Next(db, action) == Success(after)
    ensures LedgersOk(after) && forall id :: Onward(db, after, id)
  {
    StepKeeps(db, action);
    NextShows(db, action, after);
    NextBeside(db, action, after);
    var effect := EffectOf(db, action);
    forall id: Id
      ensures Onward(db, after, id) && FirstRowClaimed(after, id)
    {
      assert FirstRowClaimed(db, id);
      EffectIsOnward(db, effect, after, id);
      ConfirmsClaimed(db, action, after);
      EffectKeepsFirstRows(db, effect, after, id);
    }
  }

  lemma ConfirmsClaimed(db: Db, action: Action, after: Db)
    requires Beside(db, action, after)
    ensures db.events <= after.events
    ensures EffectOf(db, action).Moves? && EffectOf(db, action).a.Confirming?
            ==> EffectOf(db, action).a.event in after.events
  {
  }

  lemma ElsewhereKeeps(sys: Sys, action: Action)
    requires Inv(sys) && IsElsewhere(action)
    ensures Inv(sys.(db := Step(sys.db, action)))
  {
    if Next(sys.db, action).Success? {
      var after := Step(sys.db, action);
      LedgersMoveOn(sys.db, action, after);
      NextBeside(sys.db, action, after);
      DbMovesOn(sys, after, None);
    }
  }

  // ---- The confirming transaction ----

  lemma ConfirmFrame(db: Db, id: Id, event: Id, month: YearMonth, after: Db)
    requires event !in db.events && ConfirmFromWebhook(db, id, event, month) == Success(after)
    ensures !Past(db, id) && after.events == db.events + {event} && after.payments == db.payments
  {
  }

  /** What a fresh confirmation leaves in the booking's ledger. */
  lemma ConfirmCharges(db: Db, id: Id, event: Id, month: YearMonth, after: Db)
    requires event !in db.events && ConfirmFromWebhook(db, id, event, month) == Success(after)
    requires CaseOk(CaseOf(db, id))
    ensures ChargedBy(after, id, event)
  {
  }

  lemma ConfirmMovesOn(db: Db, id: Id, event: Id, month: YearMonth, after: Db)
    requires LedgersOk(db) && ConfirmFromWebhook(db, id, event, month) == Success(after)
    ensures LedgersOk(after) && forall other :: Onward(db, after, other)
  {
    LedgersMoveOn(db, ConfirmingPayment(id, event, month), after);
  }

  /** A fresh confirmation claims the event for the one charge that reported it. */
  lemma ConfirmClaims(sys: Sys, p: Handler, after: Db)
    requires ChargesOk(sys) && p.ToConfirm? && HandlerOk(sys, p)
    requires !Past(sys.db, p.bookingId) && ChargedBy(after, p.bookingId, p.event)
             && after.events == sys.db.events + {p.event}
    ensures ClaimsEvent(sys, after, Some(p.event))
  {
  }

  /** A confirmation refused for the booking's state leaves the charge stranded. */
  lemma RefusalStrands(sys: Sys, p: Handler, month: YearMonth)
    requires ChargesOk(sys) && p.ToConfirm? && HandlerOk(sys, p)
    requires ConfirmFromWebhook(sys.db, p.bookingId, p.event, month) == Failure(WrongState)
    ensures Stranded(sys, p.charge)
  {
  }

  /** A fresh confirmation, before the handler moves on. */
  lemma ConfirmedKeeps(sys: Sys, p: Handler, month: YearMonth, after: Db)
    requires Inv(sys) && p.ToConfirm? && HandlerOk(sys, p) && p.event !in sys.db.events
    requires ConfirmFromWebhook(sys.db, p.bookingId, p.event, month) == Success(after)
    ensures Inv(sys.(db := after))
  {
    var id, event := p.bookingId, p.event;
    ConfirmMovesOn(sys.db, id, event, month, after);
    ConfirmFrame(sys.db, id, event, month, after);
    assert CaseOk(CaseOf(sys.db, id));
    ConfirmCharges(sys.db, id, event, month, after);
    ConfirmClaims(sys, p, after);
    DbMovesOn(sys, after, Some(event));
  }

  lemma FreshConfirmKeeps(sys: Sys, h: nat, p: Handler, month: YearMonth, after: Db)
    requires Inv(sys) && h in sys.handlers && sys.handlers[h] == p && p.ToConfirm? && p.event !in sys.db.events
    requires ConfirmFromWebhook(sys.db, p.bookingId, p.event, month) == Success(after)
    ensures Inv(Goto(sys.(db := after), h, ToMark(p.charge, Successful)))
  {
    assert HandlerOk(sys, p);
    ConfirmedKeeps(sys, p, month, after);
    ConfirmFrame(sys.db, p.bookingId, p.event, month, after);
    GotoKeeps(sys.(db := after), h, ToMark(p.charge, Successful));
  }

  lemma ConfirmKeepsInv(sys: Sys, h: nat, p: Handler, month: YearMonth)
    requires Inv(sys) && h in sys.handlers && sys.handlers[h] == p && p.ToConfirm?
    ensures Inv(AfterConfirm(sys, h, p, month))
  {
    assert HandlerOk(sys, p);
    match ConfirmFromWebhook(sys.db, p.bookingId, p.event, month)
    case Success(after) =>
      if p.event in sys.db.events {
        GotoKeeps(sys, h, ToMark(p.charge, Successful));
      } else {
        FreshConfirmKeeps(sys, h, p, month, after);
      }
    case Failure(e) =>
      if e.WrongState? {
        RefusalStrands(sys, p, month);
        GotoKeeps(sys, h, ToClaim(p.charge));
      } else {
        FinishKeeps(sys, h);
      }
  }

  // ---- Charges at the gateway ----

  predicate Extends(sys: Sys, charges: map<Id, GatewayCharge>) {
    forall c :: c in sys.charges ==>
      && c in charges && charges[c].bookingId == sys.charges[c].bookingId && charges[c].event == sys.charges[c].event
      && (charges[c] == sys.charges[c] || sys.charges[c].state.ChargePending?)
  }

  lemma HandlerKeepsWithCharges(sys: Sys, charges: map<Id, GatewayCharge>, p: Handler)
    requires HandlerOk(sys, p) && Extends(sys, charges)
    ensures HandlerOk(sys.(charges := charges), p)
  {
  }

  /** Charges that appear or settle at the gateway. */
  lemma ChargesKeep(sys: Sys, charges: map<Id, GatewayCharge>)
    requires Inv(sys) && Extends(sys, charges)
    requires ChargesOk(sys.(charges := charges))
    ensures Inv(sys.(charges := charges))
  {
    var next := sys.(charges := charges);
    forall h | h in next.handlers
      ensures HandlerOk(next, next.handlers[h])
    {
      HandlerKeepsWithCharges(sys, charges, sys.handlers[h]);
    }
    forall c: Id
      ensures RefundOk(next, c)
    {
      assert RefundOk(sys, c);
    }
  }

  lemma SettleKeepsCharges(sys: Sys, charge: Id, state: ChargeState)
    requires ChargesOk(sys) && charge in sys.charges && sys.charges[charge].state.ChargePending?
    ensures var charges := sys.charges[charge := sys.charges[charge].(state := state)];
            Extends(sys, charges) && ChargesOk(sys.(charges := charges))
  {
  }

  lemma CreateKeepsCharges(sys: Sys, id: Id, charge: Id, event: Id)
    requires ChargesOk(sys) && Opened(sys.db, id) && charge !in sys.charges && !EventInUse(sys.charges, event)
    ensures var charges := sys.charges[charge := GatewayCharge(id, event, ChargePending)];
            Extends(sys, charges) && ChargesOk(sys.(charges := charges))
  {
  }

  lemma CreateKeepsInv(sys: Sys, h: nat, p: Handler, charge: Id, event: Id)
    requires Inv(sys) && h in sys.handlers && sys.handlers[h] == p && p.ToCreate?
    requires charge !in sys.charges && !EventInUse(sys.charges, event)
    ensures Inv(AfterCreate(sys, h, p, charge, event))
  {
    assert HandlerOk(sys, p);
    CreateKeepsCharges(sys, p.bookingId, charge, event);
    var created := sys.(charges := sys.charges[charge := GatewayCharge(p.bookingId, event, ChargePending)]);
    ChargesKeep(sys, created.charges);
    if p.keepsRow {
      GotoKeeps(created, h, ToRecord(charge, p.bookingId));
    } else {
      FinishKeeps(created, h);
    }
  }

  // ---- Every run ----

  predicate IsDelivery(step: SysStep) {
    step.Deliver? || step.Fetch? || step.Confirm? || step.Mark? || step.Claim?
  }

  lemma DeliveryKeeps(sys: Sys, step: SysStep)
    requires Inv(sys) && IsDelivery(step) && OneEventPerCharge(sys, step)
    ensures Inv(Advance(sys, step))
  {
    match step
    case Deliver(h, event, charge) => if h !in sys.handlers { GotoKeeps(sys, h, Arrived(event, charge)); }
    case Fetch(h) =>
      if h in sys.handlers && sys.handlers[h].Arrived? {
        FetchKeeps(sys, h, sys.handlers[h].event, sys.handlers[h].charge);
      }
    case Confirm(h, month) =>
      if h in sys.handlers && sys.handlers[h].ToConfirm? {
        ConfirmKeepsInv(sys, h, sys.handlers[h], month);
      }
    case Mark(h) => if h in sys.handlers && sys.handlers[h].ToMark? { MarkKeepsInv(sys, h, sys.handlers[h]); }
    case Claim(h) => if h in sys.handlers && sys.handlers[h].ToClaim? { ClaimKeeps(sys, h, sys.handlers[h].charge); }
  }

  predicate IsRefunding(step: SysStep) {
    step.CallGateway? || step.RollBack? || step.Crash?
  }

  lemma CallAdvances(sys: Sys, h: nat, ok: bool)
    requires h in sys.handlers && sys.handlers[h].ToRefund?
    ensures Advance(sys, CallGateway(h, ok)) == AfterGateway(sys, h, sys.handlers[h].charge, ok)
  {
  }

  lemma RollBackAdvances(sys: Sys, h: nat)
    requires h in sys.handlers && sys.handlers[h].ToRollBack?
    ensures Advance(sys, RollBack(h)) == AfterRollBack(sys, h, sys.handlers[h].charge)
  {
  }

  lemma CrashAdvances(sys: Sys, h: nat)
    requires h in sys.handlers
    ensures Advance(sys, Crash(h)) == AfterCrash(sys, h, sys.handlers[h])
  {
  }

  lemma NotEnabled(sys: Sys, step: SysStep)
    requires IsRefunding(step)
    requires step.h !in sys.handlers || (step.CallGateway? && !sys.handlers[step.h].ToRefund?)
             || (step.RollBack? && !sys.handlers[step.h].ToRollBack?)
    ensures Advance(sys, step) == sys
  {
  }

  /** A holder's call and its roll-back. */
  lemma HolderStepKeeps(sys: Sys, step: SysStep)
    requires Inv(sys) && IsRefunding(step) && step.h in sys.handlers
    requires (step.CallGateway? && sys.handlers[step.h].ToRefund?)
             || (step.RollBack? && sys.handlers[step.h].ToRollBack?)
    ensures Inv(Advance(sys, step))
  {
    var h, charge := step.h, sys.handlers[step.h].charge;
    if step.CallGateway? {
      CallAdvances(sys, h, step.ok);
      HolderKeeps(sys, h, charge, AfterGateway(sys, h, charge, step.ok));
    } else {
      RollBackAdvances(sys, h);
      HolderKeeps(sys, h, charge, AfterRollBack(sys, h, charge));
    }
  }

  lemma RefundingKeeps(sys: Sys, step: SysStep)
    requires Inv(sys) && IsRefunding(step)
    ensures Inv(Advance(sys, step))
  {
    if step.h in sys.handlers && step.Crash? {
      CrashAdvances(sys, step.h);
      CrashKeeps(sys, step.h);
    } else if step.h in sys.handlers && ((step.CallGateway? && sys.handlers[step.h].ToRefund?)
                                         || (step.RollBack? && sys.handlers[step.h].ToRollBack?)) {
      HolderStepKeeps(sys, step);
    } else {
      NotEnabled(sys, step);
    }
  }

  lemma PayingKeeps(sys: Sys, step: SysStep)
    requires Inv(sys) && !IsDelivery(step) && !IsRefunding(step)
    ensures Inv(Advance(sys, step))
  {
    match step
    case BeginPayment(h, id, keepsRow) =>
      if h !in sys.handlers && id in sys.db.bookings && sys.db.bookings[id].status.AwaitingPayment? {
        GotoKeeps(sys, h, ToCreate(id, keepsRow));
      }
    case CreateCharge(h, charge, event) =>
      if h in sys.handlers && sys.handlers[h].ToCreate? && charge !in sys.charges && !EventInUse(sys.charges, event) {
        CreateKeepsInv(sys, h, sys.handlers[h], charge, event);
      }
    case RecordRow(h) => if h in sys.handlers && sys.handlers[h].ToRecord? { RecordKeeps(sys, h, sys.handlers[h]); }
    case GatewaySettles(charge, state) =>
      if charge in sys.charges && sys.charges[charge].state.ChargePending? {
        SettleKeepsCharges(sys, charge, state);
        ChargesKeep(sys, sys.charges[charge := sys.charges[charge].(state := state)]);
      }
    case Elsewhere(action) => if IsElsewhere(action) { ElsewhereKeeps(sys, action); }
  }

  lemma StartIsOk()
    ensures Inv(START)
  {
  }

  lemma StepKeepsInv(sys: Sys, step: SysStep)
    requires Inv(sys) && OneEventPerCharge(sys, step)
    ensures Inv(Advance(sys, step))
  {
    if IsDelivery(step) {
      DeliveryKeeps(sys, step);
    } else if IsRefunding(step) {
      RefundingKeeps(sys, step);
    } else {
      PayingKeeps(sys, step);
    }
  }

  lemma {:induction false} InvHolds(steps: seq<SysStep>)
    requires HonestRun(steps)
    ensures Inv(SysRun(START, steps))
  {
    if steps == [] {
      StartIsOk();
    } else {
      InvHolds(steps[..|steps| - 1]);
      StepKeepsInv(SysRun(START, steps[..|steps| - 1]), steps[|steps| - 1]);
    }
  }

  // ---- What it means ----

  /** The charge is the one its booking's ledger records. */
  predicate Recorded(sys: Sys, charge: Id) {
    charge in sys.charges && ChargedBy(sys.db, sys.charges[charge].bookingId, sys.charges[charge].event)
  }

  /** At most one charge of a booking is ever recorded in its ledger. */
  lemma RecordedOnce(steps: seq<SysStep>, a: Id, b: Id)
    requires HonestRun(steps)
    requires var sys := SysRun(START, steps);
             Recorded(sys, a) && Recorded(sys, b) && sys.charges[a].bookingId == sys.charges[b].bookingId
    ensures a == b
  {
    InvHolds(steps);
    assert SysRun(START, steps).charges[a].event == SysRun(START, steps).charges[b].event;
  }

  /** No interleaving refunds the recorded charge as stranded, or is about to. */
  lemma RecordedIsNeverRefunded(steps: seq<SysStep>, charge: Id)
    requires HonestRun(steps) && Recorded(SysRun(START, steps), charge)
    ensures var sys := SysRun(START, steps);
            Refunds(sys, charge) == 0 && ClaimHolders(sys.handlers, charge) == {} && !RowRefunded(sys.db, charge)
  {
    InvHolds(steps);
    var sys := SysRun(START, steps);
    assert FirstRowClaimed(sys.db, sys.charges[charge].bookingId);
    assert RefundOk(sys, charge);
  }

  /** Any charge is refunded at most once, and exactly once whenever its row rests at
      REFUNDED with no handler holding the claim and none lost with the claim. A charge
      that never got a payment row is never refunded. */
  lemma RefundedExactlyOnce(steps: seq<SysStep>, charge: Id)
    requires HonestRun(steps)
    ensures var sys := SysRun(START, steps);
            && Refunds(sys, charge) <= 1
            && (Refunds(sys, charge) == 1 <==>
                  RowRefunded(sys.db, charge) && ClaimHolders(sys.handlers, charge) == {} && charge !in sys.lost)
            && (charge !in sys.db.payments ==> Refunds(sys, charge) == 0)
  {
    InvHolds(steps);
    assert RefundOk(SysRun(START, steps), charge);
  }
}
