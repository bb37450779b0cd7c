/** Runs of the refund protocol, from the empty system, in which the guest is sent
    something other than the refund row, once: each breaks one rule of the discipline. */
module RefundExamples {
  import opened Wrappers
  import opened Money
  import opened Codes
  import opened Bookings
  import opened CaseInvariants
  import opened CaseLaws
  import opened CaseHistories
  import opened CaseExamples
  import opened Database
  import opened Operations
  import opened Runs
  import opened RunExamples
  import opened RefundSending
  import opened RefundCounting
  import opened RefundViews
  import opened RefundRuns
  import opened RefundSafety

  // ---- From the empty system to a decided dispute ----

  /** An instant booking, paid. */
  function Paid(id: Id, terms: Terms, charge: Id): seq<DeskStep> {
    [Elsewhere(HoldingInstantly(id, terms, 0, false))] + PaidBy(charge, id)
  }

  function Stayed(id: Id, terms: Terms, event: Id, month: YearMonth): seq<DeskStep> {
    Paid(id, terms, event) + [Elsewhere(ConfirmingPayment(id, event, month))] + [Elsewhere(Acting(id, CheckingIn))]
  }

  /** Paid for, checked in, disputed, and decided at fifty percent. */
  function HalfDecided(id: Id, terms: Terms, event: Id, month: YearMonth): seq<DeskStep> {
    Stayed(id, terms, event, month)
    + [Elsewhere(Acting(id, OpeningDispute(terms.guest, event)))]
    + [Elsewhere(Acting(id, ResolvingDispute(event, PartialRefund(50))))]
  }

  /** Nobody has sent anything; the booking is paid, and this is its case. */
  predicate At(d: Desk, id: Id, c: Case) {
    && d.senders == map[] && d.sent == [] && id in d.db.bookings && HasPaid(d.db, id) && CaseOf(d.db, id) == c
  }

  lemma PaidIsAt(id: Id, terms: Terms, charge: Id)
    requires FitsColumn(terms.total) && FitsColumn(terms.commission)
    ensures At(DeskRun(FRESH, Paid(id, terms, charge)), id, NewHold(id, terms))
    ensures DeskRun(FRESH, Paid(id, terms, charge)).db.counters == map[]
    ensures DeskRun(FRESH, Paid(id, terms, charge)).db.events == {}
  {
    var holding := HoldingInstantly(id, terms, 0, false);
    var held := FRESH.(db := EMPTY.(bookings := map[id := InstantRow(terms, 0)]));
    HoldStep(id, terms);
    ElsewhereStep(FRESH, holding);
    OneStep(FRESH, Elsewhere(holding));
    DeskRunConcat(FRESH, [Elsewhere(holding)], PaidBy(charge, id));
    PayingSteps(held, charge, id);
    assert DeskRun(held, PaidBy(charge, id)).db.payments[charge] == Payment(id, Successful);
  }

  /** A transition asked for directly leaves the payments alone. */
  lemma ActingSteps(d: Desk, id: Id, a: DirectAction, c: Case)
    requires At(d, id, c)
    ensures At(Advance(d, Elsewhere(Acting(id, a))), id, CaseStep(c, a))
  {
    ElsewhereStep(d, Acting(id, a));
    SamePayments(d.db, id, a);
    if CaseNext(c, a).Success? {
      ActingTakes(d.db, id, a);
    }
  }

  lemma SamePayments(db: Db, id: Id, a: DirectAction)
    requires id in db.bookings
    ensures Step(db, Acting(id, a)).payments == db.payments
    ensures CaseNext(CaseOf(db, id), a).Failure? ==> Step(db, Acting(id, a)) == db
  {
    assert Next(db, Acting(id, a)) == Act(db, id, a);
  }

  lemma ConfirmingSteps(d: Desk, id: Id, event: Id, month: YearMonth, c: Case)
    requires At(d, id, c) && event !in d.db.events && d.db.counters == map[]
    requires c.Confirm(event, Code(month, 1)).Success?
    ensures At(Advance(d, Elsewhere(ConfirmingPayment(id, event, month))), id,
            CaseStep(c, Confirming(event, Code(month, 1))))
  {
    var action := ConfirmingPayment(id, event, month);
    ElsewhereStep(d, action);
    ConfirmIsAccepted(d.db, id, event, month);
    ActionTakes(d.db, action, id, Confirming(event, Code(month, 1)));
  }

  lemma StayedIsAt(id: Id, terms: Terms, event: Id, month: YearMonth)
    requires FitsColumn(terms.total) && FitsColumn(terms.commission) && 0 < terms.total
    ensures At(DeskRun(FRESH, Stayed(id, terms, event, month)), id,
            CaseRun(NewHold(id, terms), Staying(event, Code(month, 1))))
  {
    var c, code := NewHold(id, terms), Code(month, 1);
    var paid := Paid(id, terms, event);
    var confirming := Elsewhere(ConfirmingPayment(id, event, month));
    PaidIsAt(id, terms, event);
    NewCaseIsOk(id, InstantRow(terms, 0));
    ConfirmAcceptedIff(c, event, code);
    ConfirmingSteps(DeskRun(FRESH, paid), id, event, month, c);
    Snoc(FRESH, paid, confirming);
    OneStepRun(c, Confirming(event, code));
    ActingSteps(DeskRun(FRESH, paid + [confirming]), id, CheckingIn, CaseRun(c, [Confirming(event, code)]));
    Snoc(FRESH, paid + [confirming], Elsewhere(Acting(id, CheckingIn)));
    RunSnoc(c, [Confirming(event, code)], CheckingIn);
  }

  lemma HalfDecidedIsAt(id: Id, terms: Terms, event: Id, month: YearMonth)
    requires FitsColumn(terms.total) && FitsColumn(terms.commission) && 0 < terms.total
    ensures At(DeskRun(FRESH, HalfDecided(id, terms, event, month)), id,
                CaseRun(NewHold(id, terms), HalfRefunded(event, Code(month, 1), terms.guest)))
  {
    var c, staying := NewHold(id, terms), Staying(event, Code(month, 1));
    var stayed := Stayed(id, terms, event, month);
    var opening, deciding := OpeningDispute(terms.guest, event), ResolvingDispute(event, PartialRefund(50));
    StayedIsAt(id, terms, event, month);
    ActingSteps(DeskRun(FRESH, stayed), id, opening, CaseRun(c, staying));
    Snoc(FRESH, stayed, Elsewhere(Acting(id, opening)));
    RunSnoc(c, staying, opening);
    ActingSteps(DeskRun(FRESH, stayed + [Elsewhere(Acting(id, opening))]), id, deciding,
        CaseRun(c, staying + [opening]));
    Snoc(FRESH, stayed + [Elsewhere(Acting(id, opening))], Elsewhere(Acting(id, deciding)));
    RunSnoc(c, staying + [opening], deciding);
  }

  // ---- One sender's way to the gateway ----

  /** A sender through the gate, the null check and the look-up of the payment. */
  function ToGateway(h: nat, id: Id): seq<DeskStep> {
    [Gate(h, id)] + [ReadRow(h)] + [FindPayment(h)]
  }

  lemma GetsToTheGateway(d: Desk, h: nat, id: Id)
    requires h !in d.senders && GateOpen(d.db, id) && Owed(d.db, id) && HasPaid(d.db, id)
    ensures DeskRun(d, ToGateway(h, id)) == Goto(d, h, ToCall(id, RowAmount(d.db, id)))
  {
    var read, pay := Goto(d, h, ToRead(id)), Goto(d, h, ToPay(id, RowAmount(d.db, id)));
    OneStep(d, Gate(h, id));
    GateStep(d, h, id);
    Snoc(d, [Gate(h, id)], ReadRow(h));
    ReadStep(read, h, id);
    assert Goto(read, h, ToPay(id, RowAmount(d.db, id))) == pay;
    Snoc(d, [Gate(h, id)] + [ReadRow(h)], FindPayment(h));
    FindStep(pay, h, id, RowAmount(d.db, id));
    assert Goto(pay, h, ToCall(id, RowAmount(d.db, id))) == Goto(d, h, ToCall(id, RowAmount(d.db, id)));
  }

  // ---- Three ways it goes wrong ----

  /** A decided dispute with a refund owed, not sent, and nobody sending it. */
  predicate Ready(d: Desk, id: Id) {
    && d.senders == map[] && d.sent == [] && GateOpen(d.db, id) && Owed(d.db, id) && HasPaid(d.db, id)
  }

  /** And the guest can still appeal. */
  predicate Appealable(db: Db, id: Id) {
    && id in db.bookings && id in db.disputes && CaseOk(CaseOf(db, id)) && db.bookings[id].escrow.Releasable?
    && !db.disputes[id].status.Open? && db.disputes[id].guestAppealedAt.None? && !Stored(db, id)
  }

  lemma HalfDecidedIsReady(id: Id, terms: Terms, event: Id, month: YearMonth)
    requires FitsColumn(terms.total) && FitsColumn(terms.commission) && 2 <= terms.total
    ensures var d := DeskRun(FRESH, HalfDecided(id, terms, event, month));
            && Ready(d, id) && Appealable(d.db, id) && RowAmount(d.db, id) == (terms.total + 1) / 2
            && d.db.bookings[id].terms == terms.(mode := InstantMode)
  {
    var d := DeskRun(FRESH, HalfDecided(id, terms, event, month));
    HalfDecidedIsAt(id, terms, event, month);
    GetsToAPartialRefund(id, terms, event, Code(month, 1));
    RefundStages(CaseOf(d.db, id));
    RowAmountIsPrior(d.db, id);
  }

  /** Two finalizations side by side, each through the null check before either calls. */
  function TwoFinalizations(id: Id, refund: Id, other: Id): seq<DeskStep> {
    ToGateway(0, id) + ToGateway(1, id) + [CallGateway(0, Some(refund))] + [CallGateway(1, Some(other))]
  }

  /** The sender dies after the gateway has paid; a second one finds nothing stored. */
  function DyingAfterTheCall(id: Id, refund: Id, other: Id): seq<DeskStep> {
    ToGateway(0, id) + [CallGateway(0, Some(refund))] + [Die(0)] + ToGateway(0, id) + [CallGateway(0, Some(other))]
  }

  /** The guest appeals after the gateway has paid and before the id is stored, and is
      given the rest. */
  function AppealInBetween(id: Id, guest: Id, refund: Id): seq<DeskStep> {
    ToGateway(0, id) + [CallGateway(0, Some(refund))] + [Elsewhere(Acting(id, Appealing(guest, GuestSide, 0)))]
    + [StoreId(0)] + [RefundingTheRest(id)]
  }

  lemma BothPass(d: Desk, id: Id)
    requires Ready(d, id)
    ensures DeskRun(d, ToGateway(0, id) + ToGateway(1, id))
            == Goto(Goto(d, 0, ToCall(id, RowAmount(d.db, id))), 1, ToCall(id, RowAmount(d.db, id)))
  {
    GetsToTheGateway(d, 0, id);
    GetsToTheGateway(Goto(d, 0, ToCall(id, RowAmount(d.db, id))), 1, id);
    DeskRunConcat(d, ToGateway(0, id), ToGateway(1, id));
  }

  lemma TwoFinalizationsSendTwice(d: Desk, id: Id, refund: Id, other: Id)
    requires Ready(d, id)
    ensures SentFor(DeskRun(d, TwoFinalizations(id, refund, other)).sent, id)
            == [RowAmount(d.db, id), RowAmount(d.db, id)]
  {
    var amount := RowAmount(d.db, id);
    var both := Goto(Goto(d, 0, ToCall(id, amount)), 1, ToCall(id, amount));
    BothPass(d, id);
    Snoc(d, ToGateway(0, id) + ToGateway(1, id), CallGateway(0, Some(refund)));
    CallStep(both, 0, id, amount, refund);
    var once := Advance(both, CallGateway(0, Some(refund)));
    Snoc(d, ToGateway(0, id) + ToGateway(1, id) + [CallGateway(0, Some(refund))], CallGateway(1, Some(other)));
    CallStep(once, 1, id, amount, other);
    SentSnoc([], GatewayRefund(id, amount), id);
    SentSnoc([GatewayRefund(id, amount)], GatewayRefund(id, amount), id);
    assert [] + [GatewayRefund(id, amount)] == [GatewayRefund(id, amount)];
  }

  lemma OnePays(d: Desk, h: nat, id: Id, refund: Id)
    requires h !in d.senders && GateOpen(d.db, id) && Owed(d.db, id) && HasPaid(d.db, id)
    ensures DeskRun(d, ToGateway(h, id) + [CallGateway(h, Some(refund))])
            == Desk(d.db, d.senders[h := ToStore(id, RowAmount(d.db, id), refund)],
                    d.sent + [GatewayRefund(id, RowAmount(d.db, id))])
  {
    GetsToTheGateway(d, h, id);
    Snoc(d, ToGateway(h, id), CallGateway(h, Some(refund)));
    var at := Goto(d, h, ToCall(id, RowAmount(d.db, id)));
    CallStep(at, h, id, RowAmount(d.db, id), refund);
    assert at.senders[h := ToStore(id, RowAmount(d.db, id), refund)]
        == d.senders[h := ToStore(id, RowAmount(d.db, id), refund)];
  }

  lemma DyingSendsTwice(d: Desk, id: Id, refund: Id, other: Id)
    requires Ready(d, id)
    ensures SentFor(DeskRun(d, DyingAfterTheCall(id, refund, other)).sent, id)
            == [RowAmount(d.db, id), RowAmount(d.db, id)]
  {
    var amount := RowAmount(d.db, id);
    var first, again := ToGateway(0, id) + [CallGateway(0, Some(refund))], ToGateway(0, id)
        + [CallGateway(0, Some(other))];
    var dead := Desk(d.db, map[], [GatewayRefund(id, amount)]);
    OnePays(d, 0, id, refund);
    Snoc(d, first, Die(0));
    assert DeskRun(d, first + [Die(0)]) == dead by {
      assert DeskRun(d, first).senders - {0} == map[];
      assert d.sent + [GatewayRefund(id, amount)] == [GatewayRefund(id, amount)];
    }
    OnePays(dead, 0, id, other);
    DeskRunConcat(d, first + [Die(0)], again);
    assert first + [Die(0)] + again == DyingAfterTheCall(id, refund, other);
    SentSnoc([], GatewayRefund(id, amount), id);
    SentSnoc([GatewayRefund(id, amount)], GatewayRefund(id, amount), id);
    assert [] + [GatewayRefund(id, amount)] == [GatewayRefund(id, amount)];
  }

  lemma AppealTakes(db: Db, id: Id, after: Db)
    requires Appealable(db, id)
    requires after == Step(db, Acting(id, Appealing(db.bookings[id].terms.guest, GuestSide, 0)))
    ensures id in after.bookings && CaseOk(CaseOf(after, id))
    ensures AwaitsDecision(after, id) && CaseOf(after, id).refund == CaseOf(db, id).refund
    ensures after.bookings[id].terms == db.bookings[id].terms
  {
    var c, guest := CaseOf(db, id), db.bookings[id].terms.guest;
    AppealAcceptedIff(c, guest, GuestSide, 0);
    StoredIsSent(db, id);
    ActingTakes(db, id, Appealing(guest, GuestSide, 0));
    AppealDisputeKeeps(c, guest, GuestSide, 0, CaseOf(after, id));
    AppealKeepsTerms(c, guest, GuestSide, 0, CaseOf(after, id));
  }

  lemma AppealKeepsTerms(c: Case, userId: Id, side: Side, now: int, c': Case)
    requires c.AppealDispute(userId, side, now) == Success(c')
    ensures c'.dispute.Some? && c'.row.terms == c.row.terms
  {
  }

  lemma StoringKeepsFrozen(db: Db, id: Id, refund: Id, after: Db)
    requires id in db.bookings && id in db.refunds && CaseOk(CaseOf(db, id)) && AwaitsDecision(db, id)
    requires after == StoredDb(db, id, refund)
    ensures id in after.bookings && CaseOk(CaseOf(after, id)) && AwaitsDecision(after, id) && Stored(after, id)
    ensures RowAmount(after, id) == RowAmount(db, id) && after.bookings == db.bookings
  {
    StoredView(db, id, refund, id);
    StoringIsOnward(CaseOf(db, id), refund);
  }

  lemma RefundingStays(db: Db, id: Id, after: Db)
    requires id in db.bookings && CaseOk(CaseOf(db, id)) && AwaitsDecision(db, id) && Stored(db, id)
    requires after == Step(db, Acting(id, ResolvingAppeal(0, RefundAll)))
    ensures Stored(after, id) && RowAmount(after, id) == db.bookings[id].terms.total > RowAmount(db, id)
  {
    var f := CaseOf(db, id);
    RefundingTakes(db, id, after);
    ResolveAppealAcceptedIff(f, 0, RefundAll);
    ActingTakes(db, id, ResolvingAppeal(0, RefundAll));
    RefundTheRest(f, CaseStep(f, ResolvingAppeal(0, RefundAll)));
    StoredIsSent(db, id);
    StoredIsSent(after, id);
  }

  /** The tables after the appeal, the store and the decision. */
  lemma AppealStoreDecide(db: Db, id: Id, refund: Id, after: Db)
    requires Appealable(db, id) && id in db.refunds
    requires var appealed := Step(db, Acting(id, Appealing(db.bookings[id].terms.guest, GuestSide, 0)));
             after == Step(StoredDb(appealed, id, refund), Acting(id, ResolvingAppeal(0, RefundAll)))
    ensures Stored(after, id) && RowAmount(after, id) == db.bookings[id].terms.total > RowAmount(db, id)
  {
    var appealed := Step(db, Acting(id, Appealing(db.bookings[id].terms.guest, GuestSide, 0)));
    var stored := StoredDb(appealed, id, refund);
    AppealTakes(db, id, appealed);
    assert CaseOf(db, id).refund.Some?;
    assert CaseOf(appealed, id).refund.Some?;
    SamePrior(appealed, db, id);
    StoringKeepsFrozen(appealed, id, refund, stored);
    RefundingStays(stored, id, after);
  }

  lemma AppealInBetweenUnderpays(d: Desk, id: Id, refund: Id)
    requires Ready(d, id) && Appealable(d.db, id)
    ensures var after := DeskRun(d, AppealInBetween(id, d.db.bookings[id].terms.guest, refund));
            && Stored(after.db, id) && SentFor(after.sent, id) == [RowAmount(d.db, id)]
            && RowAmount(after.db, id) == d.db.bookings[id].terms.total > RowAmount(d.db, id)
  {
    var amount := RowAmount(d.db, id);
    var appeal := Acting(id, Appealing(d.db.bookings[id].terms.guest, GuestSide, 0));
    var paying := ToGateway(0, id) + [CallGateway(0, Some(refund))];
    var paid := Desk(d.db, map[0 := ToStore(id, amount, refund)], [GatewayRefund(id, amount)]);
    OnePays(d, 0, id, refund);
    assert DeskRun(d, paying) == paid by {
      assert d.senders[0 := ToStore(id, amount, refund)] == map[0 := ToStore(id, amount, refund)];
      assert d.sent + [GatewayRefund(id, amount)] == [GatewayRefund(id, amount)];
    }
    Snoc(d, paying, Elsewhere(appeal));
    ElsewhereStep(paid, appeal);
    var appealed := paid.(db := Step(d.db, appeal));
    Snoc(d, paying + [Elsewhere(appeal)], StoreId(0));
    StoreStep(appealed, 0, id, amount, refund);
    var stored := Finish(appealed.(db := StoredDb(appealed.db, id, refund)), 0);
    Snoc(d, paying + [Elsewhere(appeal)] + [StoreId(0)], RefundingTheRest(id));
    ElsewhereStep(stored, Acting(id, ResolvingAppeal(0, RefundAll)));
    AppealStoreDecide(d.db, id, refund, Step(stored.db, Acting(id, ResolvingAppeal(0, RefundAll))));
    SentSnoc([], GatewayRefund(id, amount), id);
    assert [] + [GatewayRefund(id, amount)] == [GatewayRefund(id, amount)];
  }

  /** All three, from the empty system: the guest of a stay decided at fifty percent is
      sent the half twice, twice again, or the half of a refund that is now the whole. */
  lemma RefundsGoWrong(id: Id, terms: Terms, event: Id, month: YearMonth, refund: Id, other: Id)
    requires FitsColumn(terms.total) && FitsColumn(terms.commission) && 2 <= terms.total
    ensures var decided, half := HalfDecided(id, terms, event, month), (terms.total + 1) / 2;
            && SentFor(DeskRun(FRESH, decided + TwoFinalizations(id, refund, other)).sent, id) == [half, half]
            && SentFor(DeskRun(FRESH, decided + DyingAfterTheCall(id, refund, other)).sent, id) == [half, half]
    ensures var after :=
            DeskRun(FRESH, HalfDecided(id, terms, event, month) + AppealInBetween(id, terms.guest, refund));
            && SentFor(after.sent, id) == [(terms.total + 1) / 2]
            && Stored(after.db, id) && RowAmount(after.db, id) == terms.total
  {
    var decided := HalfDecided(id, terms, event, month);
    var d := DeskRun(FRESH, decided);
    HalfDecidedIsReady(id, terms, event, month);
    DeskRunConcat(FRESH, decided, TwoFinalizations(id, refund, other));
    TwoFinalizationsSendTwice(d, id, refund, other);
    DeskRunConcat(FRESH, decided, DyingAfterTheCall(id, refund, other));
    DyingSendsTwice(d, id, refund, other);
    DeskRunConcat(FRESH, decided, AppealInBetween(id, terms.guest, refund));
    AppealInBetweenUnderpays(d, id, refund);
  }
}
