/** The two ways money goes back to a guest, run together: stranded charges refunded by the
    webhook, and owed refunds sent by the cancellation pages and the administrators. */
module JointRefunds {
  import opened Wrappers
  import opened Money
  import opened Codes
  import opened Bookings
  import opened CaseInvariants
  import opened CaseLaws
  import opened Database
  import opened Operations
  import opened Effects
  import opened Webhook
  import opened WebhookSafety
  import opened WebhookRuns
  import RefundSending
  import RefundCounting
  import RefundViews
  import RefundRuns
  import RefundSafety
  import RefundCancellations

  /** One database, the webhook's handlers and gateway, the senders and what they sent. */
  datatype Joint = Joint(sys: Sys, senders: map<nat, RefundSending.Sender>, sent: seq<RefundSending.GatewayRefund>)

  datatype JointStep = OnWebhook(w: SysStep) | OnDesk(d: RefundSending.DeskStep)

  const BOTH := Joint(START, map[], [])

  function DeskOf(j: Joint): RefundSending.Desk {
    RefundSending.Desk(j.sys.db, j.senders, j.sent)
  }

  /** The rest of the application takes its steps on the desk's side; the payments are the
      webhook's. */
  predicate Allowed(step: JointStep) {
    match step
    case OnWebhook(w) => !w.Elsewhere?
    case OnDesk(d) => d.Elsewhere? ==> IsElsewhere(d.action)
  }

  function AdvanceJoint(j: Joint, step: JointStep): Joint {
    if !Allowed(step) then j
    else
      match step
      case OnWebhook(w) => j.(sys := Advance(j.sys, w))
      case OnDesk(d) =>
        var desk := RefundSending.Advance(DeskOf(j), d);
        Joint(j.sys.(db := desk.db), desk.senders, desk.sent)
  }

  function JointRun(steps: seq<JointStep>): Joint {
    if steps == [] then BOTH else AdvanceJoint(JointRun(steps[..|steps| - 1]), steps[|steps| - 1])
  }

  /** Deliveries carry the one event id the gateway gave the charge. */
  predicate HonestStep(j: Joint, step: JointStep) {
    step.OnWebhook? ==> OneEventPerCharge(j.sys, step.w)
  }

  predicate HonestJoint(steps: seq<JointStep>) {
    if steps == [] then true
    else
      var front := steps[..|steps| - 1];
      HonestJoint(front) && HonestStep(JointRun(front), steps[|steps| - 1])
  }

  // ---- Seen from the desk, the webhook is one more part of the application ----

  /** The table change behind a webhook step, as an action. */
  function ActionOf(sys: Sys, w: SysStep): Option<Action> {
    match w
    case Confirm(h, month) =>
      if h in sys.handlers && sys.handlers[h].ToConfirm? then
        Some(ConfirmingPayment(sys.handlers[h].bookingId, sys.handlers[h].event, month))
      else None
    case Mark(h) =>
      if h in sys.handlers && sys.handlers[h].ToMark? then
        Some(MarkingPayment(sys.handlers[h].charge, sys.handlers[h].status))
      else None
    case Claim(h) =>
      if h in sys.handlers && sys.handlers[h].ToClaim? then
        Some(SwappingPayment(sys.handlers[h].charge, Pending, RefundedPayment))
      else None
    case RollBack(h) =>
      if h in sys.handlers && sys.handlers[h].ToRollBack? then
        Some(SwappingPayment(sys.handlers[h].charge, RefundedPayment, Pending))
      else None
    case RecordRow(h) =>
      if h in sys.handlers && sys.handlers[h].ToRecord? then
        Some(AddingPayment(sys.handlers[h].charge, sys.handlers[h].bookingId))
      else None
    case _ => None
  }

  function DbAfter(sys: Sys, w: SysStep): Db {
    if ActionOf(sys, w).Some? then Step(sys.db, ActionOf(sys, w).value) else sys.db
  }

  lemma ConfirmDb(sys: Sys, h: nat, month: YearMonth)
    ensures Advance(sys, Confirm(h, month)).db == DbAfter(sys, Confirm(h, month))
  {
    if h in sys.handlers && sys.handlers[h].ToConfirm? {
      var p := sys.handlers[h];
      assert Next(sys.db, ConfirmingPayment(p.bookingId, p.event, month))
          == ConfirmFromWebhook(sys.db, p.bookingId, p.event, month);
    }
  }

  lemma PaymentDb(sys: Sys, w: SysStep)
    requires w.Mark? || w.Claim? || w.RollBack? || w.RecordRow?
    ensures Advance(sys, w).db == DbAfter(sys, w)
  {
  }

  lemma OtherDb(sys: Sys, w: SysStep)
    requires !w.Confirm? && !w.Mark? && !w.Claim? && !w.RollBack? && !w.RecordRow? && !w.Elsewhere?
    ensures Advance(sys, w).db == sys.db
  {
  }

  lemma WebhookDb(sys: Sys, w: SysStep)
    requires !w.Elsewhere?
    ensures Advance(sys, w).db == DbAfter(sys, w)
  {
    if w.Confirm? {
      ConfirmDb(sys, w.h, w.month);
    } else if w.Mark? || w.Claim? || w.RollBack? || w.RecordRow? {
      PaymentDb(sys, w);
    } else {
      OtherDb(sys, w);
    }
  }

  /** What the desk sees of a step. */
  function AsDesk(j: Joint, step: JointStep): seq<RefundSending.DeskStep> {
    if !Allowed(step) then []
    else
      match step
      case OnWebhook(w) =>
        if ActionOf(j.sys, w).Some? then [RefundSending.DeskStep.Elsewhere(ActionOf(j.sys, w).value)] else []
      case OnDesk(d) => [d]
  }

  function DeskSteps(steps: seq<JointStep>): seq<RefundSending.DeskStep> {
    if steps == [] then []
    else DeskSteps(steps[..|steps| - 1]) + AsDesk(JointRun(steps[..|steps| - 1]), steps[|steps| - 1])
  }

  /** The desk's share of a joint run is a run of the refund protocol. */
  lemma {:induction false} DeskView(steps: seq<JointStep>)
    ensures RefundSending.DeskRun(RefundSending.FRESH, DeskSteps(steps)) == DeskOf(JointRun(steps))
  {
    if steps != [] {
      var front, last := steps[..|steps| - 1], steps[|steps| - 1];
      DeskView(front);
      RefundCounting.DeskRunConcat(RefundSending.FRESH, DeskSteps(front), AsDesk(JointRun(front), last));
      StepView(JointRun(front), last);
    }
  }

  lemma StepView(j: Joint, step: JointStep)
    ensures RefundSending.DeskRun(DeskOf(j), AsDesk(j, step)) == DeskOf(AdvanceJoint(j, step))
  {
    if Allowed(step) {
      match step
      case OnDesk(d) => RefundCounting.OneStep(DeskOf(j), d);
      case OnWebhook(w) =>
        WebhookDb(j.sys, w);
        if ActionOf(j.sys, w).Some? {
          var action := ActionOf(j.sys, w).value;
          RefundCounting.OneStep(DeskOf(j), RefundSending.DeskStep.Elsewhere(action));
          RefundCounting.ElsewhereStep(DeskOf(j), action);
        }
    }
  }

  // ---- Seen from the webhook, so is the desk ----

  lemma StoredFrame(db: Db, id: Id, refundId: Id)
    ensures var after := RefundSending.StoredDb(db, id, refundId); after == db.(refunds := after.refunds)
  {
  }

  lemma OnlyRefundsMove(db: Db, after: Db, id: Id)
    requires after == db.(refunds := after.refunds) && FirstRowClaimed(db, id)
    ensures FirstRowClaimed(after, id) && Onward(db, after, id)
  {
  }

  /** Storing a refund's id is nothing to the webhook. */
  lemma StoredMovesOn(db: Db, id: Id, refundId: Id)
    requires LedgersOk(db)
    ensures var after := RefundSending.StoredDb(db, id, refundId);
            && LedgersOk(after) && after.payments == db.payments && after.events == db.events
            && forall other :: Onward(db, after, other)
  {
    var after := RefundSending.StoredDb(db, id, refundId);
    RefundViews.StoredDbOk(db, id, refundId);
    StoredFrame(db, id, refundId);
    forall other: Id
      ensures FirstRowClaimed(after, other) && Onward(db, after, other)
    {
      assert FirstRowClaimed(db, other);
      OnlyRefundsMove(db, after, other);
    }
  }

  lemma StoreKeeps(sys: Sys, id: Id, refundId: Id)
    requires Inv(sys)
    ensures Inv(sys.(db := RefundSending.StoredDb(sys.db, id, refundId)))
  {
    StoredMovesOn(sys.db, id, refundId);
    DbMovesOn(sys, RefundSending.StoredDb(sys.db, id, refundId), None);
  }

  /** What the desk's step does to the tables. */
  lemma DeskDb(j: Joint, d: RefundSending.DeskStep)
    requires Allowed(OnDesk(d))
    ensures AdvanceJoint(j, OnDesk(d)).sys == j.sys.(db := RefundViews.DbAfter(DeskOf(j), d))
    ensures var action := RefundViews.ActionOf(DeskOf(j), d); action.Some? ==> IsElsewhere(action.value)
  {
    RefundViews.AdvanceDb(DeskOf(j), d);
  }

  lemma DeskKeeps(j: Joint, d: RefundSending.DeskStep)
    requires Inv(j.sys) && Allowed(OnDesk(d))
    ensures Inv(AdvanceJoint(j, OnDesk(d)).sys)
  {
    var desk := DeskOf(j);
    DeskDb(j, d);
    if RefundViews.ActionOf(desk, d).Some? {
      ElsewhereKeeps(j.sys, RefundViews.ActionOf(desk, d).value);
    } else if RefundViews.Stores(desk, d) {
      StoreKeeps(j.sys, desk.senders[d.h].bookingId, desk.senders[d.h].refundId);
    }
  }

  lemma DeskFrame(j: Joint, d: RefundSending.DeskStep)
    requires Inv(j.sys) && Allowed(OnDesk(d))
    ensures var after := AdvanceJoint(j, OnDesk(d)).sys;
            && after.db.payments == j.sys.db.payments && j.sys.db.events <= after.db.events
            && after.charges == j.sys.charges && forall id :: Onward(j.sys.db, after.db, id)
  {
    var desk := DeskOf(j);
    DeskDb(j, d);
    if RefundViews.ActionOf(desk, d).Some? {
      var action := RefundViews.ActionOf(desk, d).value;
      if Next(j.sys.db, action).Success? {
        LedgersMoveOn(j.sys.db, action, Step(j.sys.db, action));
        NextBeside(j.sys.db, action, Step(j.sys.db, action));
      }
    } else if RefundViews.Stores(desk, d) {
      StoredMovesOn(j.sys.db, desk.senders[d.h].bookingId, desk.senders[d.h].refundId);
    }
  }

  // ---- The payment rows ----

  /** A row is for the booking of its charge, and SUCCESSFUL only once its event is
      claimed. */
  predicate RowMatches(sys: Sys, charge: Id) {
    charge in sys.db.payments ==>
      && charge in sys.charges && sys.db.payments[charge].bookingId == sys.charges[charge].bookingId
      && (sys.db.payments[charge].status.Successful? ==> sys.charges[charge].event in sys.db.events)
  }

  ghost predicate RowsMatch(sys: Sys) {
    forall charge :: RowMatches(sys, charge)
  }

  lemma RecordMatches(sys: Sys, h: nat, charge: Id)
    requires HandlersOk(sys) && RowMatches(sys, charge)
    ensures RowMatches(Advance(sys, RecordRow(h)), charge)
  {
    if h in sys.handlers {
      assert HandlerOk(sys, sys.handlers[h]);
    }
  }

  lemma MarkMatches(sys: Sys, h: nat, charge: Id)
    requires HandlersOk(sys) && RowMatches(sys, charge)
    ensures RowMatches(Advance(sys, Mark(h)), charge)
  {
    if h in sys.handlers {
      assert HandlerOk(sys, sys.handlers[h]);
    }
  }

  lemma SwapMatches(sys: Sys, w: SysStep, charge: Id)
    requires RowMatches(sys, charge) && (w.Claim? || w.RollBack?)
    ensures RowMatches(Advance(sys, w), charge)
  {
  }

  lemma ConfirmMatches(sys: Sys, h: nat, month: YearMonth, charge: Id)
    requires RowMatches(sys, charge)
    ensures RowMatches(Advance(sys, Confirm(h, month)), charge)
  {
    ConfirmDb(sys, h, month);
    if ActionOf(sys, Confirm(h, month)).Some? {
      var action := ActionOf(sys, Confirm(h, month)).value;
      if Next(sys.db, action).Success? {
        NextBeside(sys.db, action, Step(sys.db, action));
      }
      ConfirmCharges(sys, h, month);
    }
  }

  lemma ConfirmCharges(sys: Sys, h: nat, month: YearMonth)
    ensures Advance(sys, Confirm(h, month)).charges == sys.charges
  {
  }

  /** The steps that leave the tables alone. */
  lemma OtherMatches(sys: Sys, w: SysStep, charge: Id)
    requires !w.Confirm? && !w.Mark? && !w.Claim? && !w.RollBack? && !w.RecordRow? && !w.Elsewhere?
    requires RowMatches(sys, charge)
    ensures RowMatches(Advance(sys, w), charge)
  {
    OtherDb(sys, w);
    if charge in sys.charges {
      WebhookCharges(sys, w, charge);
    }
  }

  lemma WebhookMatches(sys: Sys, w: SysStep, charge: Id)
    requires HandlersOk(sys) && RowMatches(sys, charge) && !w.Elsewhere?
    ensures RowMatches(Advance(sys, w), charge)
  {
    match w
    case Confirm(h, month) => ConfirmMatches(sys, h, month, charge);
    case RecordRow(h) => RecordMatches(sys, h, charge);
    case Mark(h) => MarkMatches(sys, h, charge);
    case Claim(_) => SwapMatches(sys, w, charge);
    case RollBack(_) => SwapMatches(sys, w, charge);
    case _ => OtherMatches(sys, w, charge);
  }

  lemma JointStepKeeps(j: Joint, step: JointStep)
    requires Inv(j.sys) && RowsMatch(j.sys) && HonestStep(j, step)
    ensures Inv(AdvanceJoint(j, step).sys) && RowsMatch(AdvanceJoint(j, step).sys)
  {
    var after := AdvanceJoint(j, step).sys;
    if Allowed(step) {
      match step
      case OnWebhook(w) => StepKeepsInv(j.sys, w);
      case OnDesk(d) =>
        DeskKeeps(j, d);
        DeskFrame(j, d);
    }
    forall charge: Id
      ensures RowMatches(after, charge)
    {
      assert RowMatches(j.sys, charge);
      if step.OnWebhook? && Allowed(step) {
        WebhookMatches(j.sys, step.w, charge);
      }
    }
  }

  lemma {:induction false} JointHolds(steps: seq<JointStep>)
    requires HonestJoint(steps)
    ensures Inv(JointRun(steps).sys) && RowsMatch(JointRun(steps).sys)
  {
    if steps == [] {
      StartIsOk();
    } else {
      JointHolds(steps[..|steps| - 1]);
      JointStepKeeps(JointRun(steps[..|steps| - 1]), steps[|steps| - 1]);
    }
  }

  // ---- What goes back on one charge ----

  /** The recorded charge is never refunded as stranded. */
  lemma RecordedKeepsItsMoney(sys: Sys, charge: Id)
    requires Inv(sys) && Recorded(sys, charge)
    ensures Refunds(sys, charge) == 0
  {
    assert FirstRowClaimed(sys.db, sys.charges[charge].bookingId);
    assert RefundOk(sys, charge);
  }

  /** Whichever payment a sender finds SUCCESSFUL is the charge its booking's ledger
      records, and there is one of them. */
  lemma SuccessfulIsRecorded(steps: seq<JointStep>, charge: Id, other: Id)
    requires HonestJoint(steps)
    requires var payments := JointRun(steps).sys.db.payments;
             charge in payments && payments[charge].status.Successful?
    ensures var sys := JointRun(steps).sys;
            && Recorded(sys, charge) && Refunds(sys, charge) == 0
            && sys.charges[charge].bookingId == sys.db.payments[charge].bookingId
            && (other in sys.db.payments && sys.db.payments[other] == sys.db.payments[charge] ==> other == charge)
  {
    JointHolds(steps);
    var sys := JointRun(steps).sys;
    SuccessfulRow(sys, charge);
    RecordedKeepsItsMoney(sys, charge);
    if other in sys.db.payments && sys.db.payments[other] == sys.db.payments[charge] {
      SuccessfulRow(sys, other);
      assert sys.charges[charge].event == sys.charges[other].event;
    }
  }

  lemma SuccessfulRow(sys: Sys, charge: Id)
    requires Inv(sys) && RowsMatch(sys) && charge in sys.db.payments && sys.db.payments[charge].status.Successful?
    ensures Recorded(sys, charge) && sys.charges[charge].bookingId == sys.db.payments[charge].bookingId
  {
    assert RowMatches(sys, charge);
    assert ChargeOk(sys.db, sys.charges[charge]);
  }

  // ---- For good ----

  lemma WebhookLedgers(sys: Sys, w: SysStep, id: Id)
    requires LedgersOk(sys.db) && !w.Elsewhere?
    ensures Onward(sys.db, Advance(sys, w).db, id)
  {
    WebhookDb(sys, w);
    if ActionOf(sys, w).Some? && Next(sys.db, ActionOf(sys, w).value).Success? {
      LedgersMoveOn(sys.db, ActionOf(sys, w).value, DbAfter(sys, w));
    }
  }

  lemma WebhookCharges(sys: Sys, w: SysStep, charge: Id)
    requires charge in sys.charges && !w.Elsewhere?
    ensures var after := Advance(sys, w).charges;
            && charge in after && after[charge].event == sys.charges[charge].event
            && after[charge].bookingId == sys.charges[charge].bookingId
  {
  }

  lemma RecordedStep(j: Joint, step: JointStep, charge: Id)
    requires Inv(j.sys) && Recorded(j.sys, charge)
    ensures Recorded(AdvanceJoint(j, step).sys, charge)
  {
    var id := j.sys.charges[charge].bookingId;
    if Allowed(step) {
      match step
      case OnWebhook(w) =>
        WebhookLedgers(j.sys, w, id);
        WebhookCharges(j.sys, w, charge);
      case OnDesk(d) =>
        DeskFrame(j, d);
        assert Onward(j.sys.db, AdvanceJoint(j, step).sys.db, id);
    }
  }

  /** Once a sender can have found a charge SUCCESSFUL, it is the recorded one for good, and
      no webhook ever refunds it. */
  lemma {:induction false} SuccessfulForGood(steps: seq<JointStep>, more: seq<JointStep>, charge: Id)
    requires HonestJoint(steps + more)
    requires HonestJoint(steps) && charge in JointRun(steps).sys.db.payments
    requires JointRun(steps).sys.db.payments[charge].status.Successful?
    ensures Recorded(JointRun(steps + more).sys, charge) && Refunds(JointRun(steps + more).sys, charge) == 0
  {
    if more == [] {
      assert steps + more == steps;
      SuccessfulIsRecorded(steps, charge, charge);
    } else {
      var all, n := steps + more, |more| - 1;
      assert all[..|all| - 1] == steps + more[..n];
      SuccessfulForGood(steps, more[..n], charge);
      JointHolds(steps + more[..n]);
      RecordedStep(JointRun(steps + more[..n]), all[|all| - 1], charge);
      JointHolds(all);
      RecordedKeepsItsMoney(JointRun(all).sys, charge);
    }
  }

  /** A refund row is within the total. */
  lemma RowWithinTotal(c: Case)
    requires CaseOk(c) && c.entries != []
    ensures 0 <= c.PriorRefund() <= c.row.terms.total
  {
    MoneyIsConserved(c);
  }

  lemma SentWithinTotal(d: RefundSending.Desk, id: Id)
    requires id in d.db.bookings && CaseOk(CaseOf(d.db, id)) && EntriesOf(d.db.ledger, id) != []
    requires RefundSending.SentIsOwed(d, id)
    ensures SumSatang(RefundSending.SentFor(d.sent, id)) <= d.db.bookings[id].terms.total
  {
    var sent := RefundSending.SentFor(d.sent, id);
    RowWithinTotal(CaseOf(d.db, id));
    RefundRuns.RowAmountIsPrior(d.db, id);
    if sent != [] {
      assert sent[..0] == [];
      assert SumSatang(sent) == SumSatang(sent[..0]) + sent[0];
    }
  }

  /** On the charge a booking's ledger records, what the webhooks refund as stranded and
      what the senders send together never exceed the booking's total: in every joint run
      with one event id per charge, if the booking never had a dispute, or under the
      senders' discipline. */
  lemma OneChargeIsNeverOverRefunded(steps: seq<JointStep>, charge: Id)
    requires HonestJoint(steps) && Recorded(JointRun(steps).sys, charge)
    requires var id := JointRun(steps).sys.charges[charge].bookingId;
             || RefundCancellations.Undisputed(JointRun(steps).sys.db, id)
             || RefundSafety.RunUndisturbed(RefundSending.FRESH, DeskSteps(steps), id)
    ensures var j := JointRun(steps);
            var id := j.sys.charges[charge].bookingId;
            var total := j.sys.db.bookings[id].terms.total;
            Refunds(j.sys, charge) * total + SumSatang(RefundSending.SentFor(j.sent, id)) <= total
  {
    var j := JointRun(steps);
    var id := j.sys.charges[charge].bookingId;
    JointHolds(steps);
    RecordedKeepsItsMoney(j.sys, charge);
    DeskView(steps);
    if RefundCancellations.Undisputed(j.sys.db, id) {
      RefundCancellations.CancelledIsRefundedOnce(DeskSteps(steps), id);
    } else {
      RefundSafety.SentOnceAsOwed(DeskSteps(steps), id);
    }
    assert CaseOk(CaseOf(j.sys.db, id));
    SentWithinTotal(DeskOf(j), id);
  }
}
