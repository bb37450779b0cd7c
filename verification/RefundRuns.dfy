/** What the guest is sent, over runs of the refund protocol: exactly when the amount sent
    can come to differ from the refund row, and the discipline under which it never does. */
module RefundRuns {
  import opened Wrappers
  import opened Bookings
  import opened CaseInvariants
  import opened CaseLaws
  import opened CaseHistories
  import opened Database
  import opened Operations
  import opened Runs
  import opened RefundSending
  import opened RefundCounting
  import opened RefundViews

  // ---- One booking's share of a step ----

  /** The senders of one booking that have passed the null check. */
  function Mine(senders: map<nat, Sender>, id: Id): map<nat, Sender> {
    map h | h in senders && senders[h].bookingId == id && !senders[h].ToRead? :: senders[h]
  }

  datatype SenderMove = Idle | Passed(h: nat) | Found(h: nat) | Fired(h: nat, refundId: Id) | Left(h: nat)

  function MoveOf(d: Desk, step: DeskStep, id: Id): SenderMove {
    if PassesNullCheck(d, step, id) then Passed(step.h)
    else if step.FindPayment? && step.h in d.senders && d.senders[step.h].ToPay?
        && d.senders[step.h].bookingId == id then
      if HasPaid(d.db, id) then Found(step.h) else Left(step.h)
    else if step.CallGateway? && step.h in d.senders && d.senders[step.h].ToCall?
        && d.senders[step.h].bookingId == id then
      if step.answer.Some? then Fired(step.h, step.answer.value) else Left(step.h)
    else if Stores(d, step) && d.senders[step.h].bookingId == id then Left(step.h)
    else if step.Die? then Left(step.h)
    else Idle
  }

  function MineAfter(mine: map<nat, Sender>, move: SenderMove, id: Id, amount: int): map<nat, Sender>
    requires move.Found? ==> move.h in mine && mine[move.h].ToPay?
    requires move.Fired? ==> move.h in mine && mine[move.h].ToCall?
  {
    match move
    case Idle => mine
    case Passed(h) => mine[h := ToPay(id, amount)]
    case Found(h) => mine[h := ToCall(id, mine[h].amount)]
    case Fired(h, refundId) => mine[h := ToStore(id, mine[h].amount, refundId)]
    case Left(h) => mine - {h}
  }

  predicate OfOneSender(step: DeskStep) {
    step.ReadRow? || step.FindPayment? || step.CallGateway? || step.StoreId?
  }

  lemma MineMoves(d: Desk, step: DeskStep, id: Id)
    ensures var mine, move := Mine(d.senders, id), MoveOf(d, step, id);
            Mine(Advance(d, step).senders, id) == MineAfter(mine, move, id, RowAmount(d.db, id))
  {
    if OfOneSender(step) {
      SenderMoves(d, step, id);
    } else {
      OthersMove(d, step, id);
    }
  }

  lemma ReadMoves(d: Desk, h: nat, id: Id)
    ensures Mine(Advance(d, ReadRow(h)).senders, id)
            == MineAfter(Mine(d.senders, id), MoveOf(d, ReadRow(h), id), id, RowAmount(d.db, id))
  {
  }

  lemma FindMoves(d: Desk, h: nat, id: Id)
    ensures Mine(Advance(d, FindPayment(h)).senders, id)
            == MineAfter(Mine(d.senders, id), MoveOf(d, FindPayment(h), id), id, RowAmount(d.db, id))
  {
  }

  lemma CallMoves(d: Desk, h: nat, answer: Option<Id>, id: Id)
    ensures Mine(Advance(d, CallGateway(h, answer)).senders, id)
            == MineAfter(Mine(d.senders, id), MoveOf(d, CallGateway(h, answer), id), id, RowAmount(d.db, id))
  {
  }

  lemma StoreMoves(d: Desk, h: nat, id: Id)
    ensures Mine(Advance(d, StoreId(h)).senders, id)
            == MineAfter(Mine(d.senders, id), MoveOf(d, StoreId(h), id), id, RowAmount(d.db, id))
  {
  }

  lemma SenderMoves(d: Desk, step: DeskStep, id: Id)
    requires OfOneSender(step)
    ensures Mine(Advance(d, step).senders, id)
            == MineAfter(Mine(d.senders, id), MoveOf(d, step, id), id, RowAmount(d.db, id))
  {
    match step
    case ReadRow(h) => ReadMoves(d, h, id);
    case FindPayment(h) => FindMoves(d, h, id);
    case CallGateway(h, answer) => CallMoves(d, h, answer, id);
    case StoreId(h) => StoreMoves(d, h, id);
  }

  lemma OthersMove(d: Desk, step: DeskStep, id: Id)
    requires !OfOneSender(step)
    ensures Mine(Advance(d, step).senders, id)
            == MineAfter(Mine(d.senders, id), MoveOf(d, step, id), id, RowAmount(d.db, id))
  {
  }

  lemma SentMoves(d: Desk, step: DeskStep, id: Id)
    ensures var mine, move := Mine(d.senders, id), MoveOf(d, step, id);
            SentFor(Advance(d, step).sent, id)
            == SentFor(d.sent, id) + (if move.Fired? then [mine[move.h].amount] else [])
  {
    if step.CallGateway? && step.h in d.senders && d.senders[step.h].ToCall? && step.answer.Some? {
      var p := d.senders[step.h];
      CallStep(d, step.h, p.bookingId, p.amount, step.answer.value);
      SentSnoc(d.sent, GatewayRefund(p.bookingId, p.amount), id);
    } else {
      NothingSent(d, step, id);
    }
  }

  lemma NothingSent(d: Desk, step: DeskStep, id: Id)
    requires !(step.CallGateway? && step.h in d.senders && d.senders[step.h].ToCall? && step.answer.Some?)
    ensures Advance(d, step).sent == d.sent && !MoveOf(d, step, id).Fired?
  {
  }

  predicate Enabled(mine: map<nat, Sender>, move: SenderMove) {
    && (move.Found? ==> move.h in mine && mine[move.h].ToPay?)
    && (move.Fired? ==> move.h in mine && mine[move.h].ToCall?)
  }

  predicate SendersFollow(d: Desk, move: SenderMove, id: Id, after: Desk) {
    && Enabled(Mine(d.senders, id), move)
    && Mine(after.senders, id) == MineAfter(Mine(d.senders, id), move, id, RowAmount(d.db, id))
    && SentFor(after.sent, id)
       == SentFor(d.sent, id) + (if move.Fired? then [Mine(d.senders, id)[move.h].amount] else [])
  }

  predicate TablesFollow(before: Db, after: Db, id: Id) {
    id in before.bookings ==> id in after.bookings && Onward(CaseOf(before, id), CaseOf(after, id))
  }

  lemma MoveIsEnabled(d: Desk, step: DeskStep, id: Id)
    ensures Enabled(Mine(d.senders, id), MoveOf(d, step, id))
  {
  }

  lemma SendersStep(d: Desk, step: DeskStep, id: Id)
    ensures SendersFollow(d, MoveOf(d, step, id), id, Advance(d, step))
  {
    MoveIsEnabled(d, step, id);
    MineMoves(d, step, id);
    SentMoves(d, step, id);
  }

  lemma TablesStep(d: Desk, step: DeskStep, id: Id)
    requires DbOk(d.db)
    ensures DbOk(Advance(d, step).db) && TablesFollow(d.db, Advance(d, step).db, id)
  {
    AdvanceDb(d, step);
    DbAfterIsOk(d, step);
    if id in d.db.bookings {
      StepIsOnward(d, step, id);
    }
  }

  /** Nothing is sent without a refund row. */
  predicate Backed(d: Desk, id: Id) {
    Mine(d.senders, id) != map[] || SentFor(d.sent, id) != [] ==> id in d.db.refunds && id in d.db.bookings
  }

  ghost predicate DeskOk(d: Desk, id: Id) {
    DbOk(d.db) && Backed(d, id)
  }

  lemma BackedStep(d: Desk, move: SenderMove, id: Id, after: Desk)
    requires Backed(d, id) && SendersFollow(d, move, id, after) && TablesFollow(d.db, after.db, id)
    requires move.Passed? ==> id in d.db.refunds && id in d.db.bookings
    ensures Backed(after, id)
  {
    if id in d.db.bookings {
      assert CaseOf(d.db, id).refund.Some? == (id in d.db.refunds);
      assert CaseOf(after.db, id).refund.Some? == (id in after.db.refunds);
    }
  }

  lemma OkStep(d: Desk, step: DeskStep, id: Id)
    requires DeskOk(d, id)
    ensures DeskOk(Advance(d, step), id)
    ensures TablesFollow(d.db, Advance(d, step).db, id) && SendersFollow(d, MoveOf(d, step, id), id, Advance(d, step))
  {
    SendersStep(d, step, id);
    TablesStep(d, step, id);
    PassingIsOwed(d, step, id);
    BackedStep(d, MoveOf(d, step, id), id, Advance(d, step));
  }

  lemma PassingIsOwed(d: Desk, step: DeskStep, id: Id)
    requires RowsOk(d.db)
    ensures MoveOf(d, step, id).Passed? <==> PassesNullCheck(d, step, id)
    ensures MoveOf(d, step, id).Passed? ==> Owed(d.db, id) && id in d.db.bookings
  {
  }

  lemma {:induction false} DeskRunIsOk(d: Desk, steps: seq<DeskStep>, id: Id)
    requires DeskOk(d, id)
    ensures DeskOk(DeskRun(d, steps), id)
    ensures id in d.db.bookings ==> id in DeskRun(d, steps).db.bookings
  {
    if steps != [] {
      DeskRunIsOk(d, steps[..|steps| - 1], id);
      OkStep(DeskRun(d, steps[..|steps| - 1]), steps[|steps| - 1], id);
    }
  }

  lemma FreshIsOk(id: Id)
    ensures DeskOk(FRESH, id)
  {
    EmptyIsOk();
  }

  // ---- When the amount sent can go wrong ----

  /** Every amount sent, and every amount a sender carries to the gateway, is the row's. */
  predicate AmountsMatch(d: Desk, id: Id) {
    && SentIsOwed(d, id)
    && forall h :: h in InFlight(d.senders, id) ==> d.senders[h].amount == RowAmount(d.db, id)
  }

  /** Two refunds are made or on their way, or one is and its amount is not the row's or
      the row can still be re-decided. */
  predicate Exposed(d: Desk, id: Id)
    requires id in d.db.bookings
  {
    || Potential(d, id) >= 2
    || (Potential(d, id) == 1 && (!AmountsMatch(d, id) || Reopenable(CaseOf(d.db, id))))
  }

  lemma InFlightIsMine(senders: map<nat, Sender>, id: Id, h: nat)
    ensures h in InFlight(senders, id) <==> h in Mine(senders, id) && !Mine(senders, id)[h].ToStore?
    ensures h in InFlight(senders, id) ==> Mine(senders, id)[h] == senders[h]
  {
  }

  lemma RowAmountIsPrior(db: Db, id: Id)
    requires id in db.bookings
    ensures RowAmount(db, id) == CaseOf(db, id).PriorRefund()
  {
  }

  lemma StillMatches(d: Desk, move: SenderMove, id: Id, after: Desk)
    requires SendersFollow(d, move, id, after) && !move.Passed?
    requires AmountsMatch(d, id) && RowAmount(after.db, id) == RowAmount(d.db, id)
    requires Potential(d, id) <= 1
    ensures AmountsMatch(after, id)
  {
    forall h ensures h in InFlight(after.senders, id)
        ==> h in InFlight(d.senders, id) && after.senders[h].amount == d.senders[h].amount {
      InFlightIsMine(d.senders, id, h);
      InFlightIsMine(after.senders, id, h);
    }
    if move.Fired? {
      InFlightIsMine(d.senders, id, move.h);
      assert |InFlight(d.senders, id)| >= |{move.h}|;
    }
  }

  lemma UnexposedStep(d: Desk, step: DeskStep, id: Id)
    requires DeskOk(d, id) && id in d.db.bookings && !Exposed(d, id) && !PassesNullCheck(d, step, id)
    ensures id in Advance(d, step).db.bookings && !Exposed(Advance(d, step), id)
  {
    PotentialStep(d, step, id);
    OkStep(d, step, id);
    PassingIsOwed(d, step, id);
    UnexposedStays(d, MoveOf(d, step, id), id, Advance(d, step));
  }

  lemma UnexposedStays(d: Desk, move: SenderMove, id: Id, after: Desk)
    requires Backed(d, id) && id in d.db.bookings && !Exposed(d, id) && !move.Passed?
    requires SendersFollow(d, move, id, after) && TablesFollow(d.db, after.db, id)
    requires Potential(after, id) <= Potential(d, id)
    ensures !Exposed(after, id)
  {
    if Potential(after, id) == 1 {
      SomethingIsBacked(d, id);
      RowAmountIsPrior(d.db, id);
      RowAmountIsPrior(after.db, id);
      StillMatches(d, move, id, after);
    }
  }

  lemma SomethingIsBacked(d: Desk, id: Id)
    requires Backed(d, id) && Potential(d, id) > 0
    ensures id in d.db.refunds && id in d.db.bookings
  {
    if InFlight(d.senders, id) != {} {
      var h :| h in InFlight(d.senders, id);
      InFlightIsMine(d.senders, id, h);
    }
  }

  lemma {:induction false} UnexposedForever(d: Desk, steps: seq<DeskStep>, id: Id)
    requires DeskOk(d, id) && id in d.db.bookings && !Exposed(d, id) && NobodyPasses(d, steps, id)
    ensures id in DeskRun(d, steps).db.bookings && !Exposed(DeskRun(d, steps), id)
  {
    if steps != [] {
      UnexposedForever(d, steps[..|steps| - 1], id);
      DeskRunIsOk(d, steps[..|steps| - 1], id);
      UnexposedStep(DeskRun(d, steps[..|steps| - 1]), steps[|steps| - 1], id);
    }
  }

  lemma UnexposedIsOwed(d: Desk, id: Id)
    requires id in d.db.bookings && !Exposed(d, id)
    ensures SentIsOwed(d, id)
  {
  }

  // ---- Actions as steps of the protocol ----

  lemma FilingStep(db: Db, report: Id, id: Id)
    requires id in db.bookings && report !in db.reports
    ensures Step(db, FilingBookingReport(report, db.bookings[id].terms.guest, id))
            == db.(reports := db.reports[report := Report(ReportStatus.Received, OnBooking(id))])
  {
    assert Next(db, FilingBookingReport(report, db.bookings[id].terms.guest, id))
        == FileBookingReport(db, report, db.bookings[id].terms.guest, id);
  }

  lemma AcceptingTakes(db: Db, report: Id, id: Id)
    requires id in db.bookings && report in db.reports && CaseOk(CaseOf(db, id))
    requires db.reports[report] == Report(ReportStatus.Received, OnBooking(id))
    ensures id in Step(db, AcceptingReport(report)).bookings
    ensures CaseOf(Step(db, AcceptingReport(report)), id) == CaseStep(CaseOf(db, id), FreezingForReport(report))
  {
    ReportFreezeNeverRefused(CaseOf(db, id), report);
    AcceptingSucceeds(db, report, id);
    ActionTakes(db, AcceptingReport(report), id, FreezingForReport(report));
  }

  lemma AcceptingSucceeds(db: Db, report: Id, id: Id)
    requires id in db.bookings && report in db.reports
    requires db.reports[report] == Report(ReportStatus.Received, OnBooking(id))
    requires CaseNext(CaseOf(db, id), FreezingForReport(report)).Success?
    ensures Next(db, AcceptingReport(report)).Success?
  {
    assert Act(db, id, FreezingForReport(report)).Success?;
    assert Next(db, AcceptingReport(report)) == AcceptIntoReview(db, report);
  }

  // ---- How it goes wrong ----

  /** A fresh report taken into review. */
  function Reporting(report: Id, guest: Id, id: Id): seq<DeskStep> {
    [Elsewhere(FilingBookingReport(report, guest, id))] + [Elsewhere(AcceptingReport(report))]
  }

  function RefundingTheRest(id: Id): DeskStep {
    Elsewhere(Acting(id, ResolvingAppeal(0, RefundAll)))
  }

  lemma ReportingSteps(d: Desk, report: Id, id: Id) returns (after: Desk)
    requires id in d.db.bookings && report !in d.db.reports && CaseOk(CaseOf(d.db, id))
    ensures after == DeskRun(d, Reporting(report, d.db.bookings[id].terms.guest, id))
    ensures NobodyPasses(d, Reporting(report, d.db.bookings[id].terms.guest, id), id)
    ensures after.senders == d.senders && after.sent == d.sent && id in after.db.bookings
    ensures CaseOf(after.db, id) == CaseStep(CaseOf(d.db, id), FreezingForReport(report))
  {
    var filing := Elsewhere(FilingBookingReport(report, d.db.bookings[id].terms.guest, id));
    var filed := d.(db := d.db.(reports := d.db.reports[report := Report(ReportStatus.Received, OnBooking(id))]));
    FilingStep(d.db, report, id);
    OneStep(d, filing);
    assert CaseOf(filed.db, id) == CaseOf(d.db, id);
    AcceptingTakes(filed.db, report, id);
    Then(d, [filing], Elsewhere(AcceptingReport(report)), id);
    after := DeskRun(d, Reporting(report, d.db.bookings[id].terms.guest, id));
  }

  lemma RefundingTakes(db: Db, id: Id, after: Db)
    requires id in db.bookings && after == Step(db, Acting(id, ResolvingAppeal(0, RefundAll)))
    requires var f := CaseOf(db, id); CaseOk(f) && f.row.escrow.Frozen? && f.dispute.Some?
    ensures id in after.bookings && RowAmount(after, id) == db.bookings[id].terms.total > RowAmount(db, id)
  {
    var f := CaseOf(db, id);
    RefundTheRest(f, CaseStep(f, ResolvingAppeal(0, RefundAll)));
    ResolveAppealAcceptedIff(f, 0, RefundAll);
    ActingTakes(db, id, ResolvingAppeal(0, RefundAll));
    RowAmountIsPrior(db, id);
    RowAmountIsPrior(after, id);
  }

  /** Re-deciding a dispute brings the row to the whole total, whatever has been sent. */
  lemma Reopen(d: Desk, id: Id) returns (steps: seq<DeskStep>, after: Desk)
    requires id in d.db.bookings && CaseOk(CaseOf(d.db, id)) && Reopenable(CaseOf(d.db, id))
    ensures NobodyPasses(d, steps, id) && after == DeskRun(d, steps)
    ensures after.senders == d.senders && after.sent == d.sent
    ensures RowAmount(after.db, id) > RowAmount(d.db, id)
  {
    var report := FreshKey(d.db.reports.Keys);
    var reporting := Reporting(report, d.db.bookings[id].terms.guest, id);
    var frozen := ReportingSteps(d, report, id);
    FreezeForReport(CaseOf(d.db, id), report, CaseOf(frozen.db, id));
    SamePrior(d.db, frozen.db, id);
    RefundingTakes(frozen.db, id, Step(frozen.db, Acting(id, ResolvingAppeal(0, RefundAll))));
    ElsewhereStep(frozen, Acting(id, ResolvingAppeal(0, RefundAll)));
    steps := reporting + [RefundingTheRest(id)];
    NotAPass(frozen, RefundingTheRest(id), id);
    Then(d, reporting, RefundingTheRest(id), id);
    after := DeskRun(d, steps);
  }

  lemma NotAPass(d: Desk, step: DeskStep, id: Id)
    requires !step.ReadRow?
    ensures !PassesNullCheck(d, step, id)
  {
  }

  lemma SamePrior(a: Db, b: Db, id: Id)
    requires id in a.bookings && id in b.bookings && CaseOf(a, id).refund == CaseOf(b, id).refund
    ensures RowAmount(a, id) == RowAmount(b, id)
  {
  }

  lemma SameCase(a: Db, b: Db, id: Id)
    requires SameButPayments(a, b) && id in b.bookings
    ensures id in a.bookings && CaseOf(a, id) == CaseOf(b, id) && RowAmount(a, id) == RowAmount(b, id)
  {
  }

  lemma OneInFlight(d: Desk, id: Id, h: nat)
    requires Potential(d, id) == 1 && h in InFlight(d.senders, id)
    ensures InFlight(d.senders, id) == {h} && SentFor(d.sent, id) == []
  {
    var rest := InFlight(d.senders, id) - {h};
    assert |rest| == |InFlight(d.senders, id)| - 1;
    assert InFlight(d.senders, id) == rest + {h};
  }

  /** The one refund on its way, or made, for one booking. */
  lemma Deliver(d: Desk, id: Id) returns (steps: seq<DeskStep>, after: Desk)
    requires id in d.db.bookings && Potential(d, id) == 1
    ensures NobodyPasses(d, steps, id) && after == DeskRun(d, steps)
    ensures |SentFor(after.sent, id)| == 1 && SameButPayments(after.db, d.db)
    ensures SentIsOwed(after, id) ==> AmountsMatch(d, id)
  {
    steps, after := [], d;
    if InFlight(d.senders, id) != {} {
      var h :| h in InFlight(d.senders, id);
      OneInFlight(d, id, h);
      steps, after := Fire(d, h, id);
      SameCase(after.db, d.db, id);
      assert SentFor(after.sent, id)[0] == d.senders[h].amount;
    }
  }

  /** Once the row grows past what was sent, the two differ. */
  lemma GrownIsNotOwed(before: Desk, after: Desk, id: Id)
    requires SentFor(before.sent, id) == [RowAmount(before.db, id)] && after.sent == before.sent
    requires RowAmount(after.db, id) > RowAmount(before.db, id)
    ensures !SentIsOwed(after, id)
  {
  }

  lemma DeliverAndReopen(d: Desk, id: Id) returns (steps: seq<DeskStep>)
    requires id in d.db.bookings && CaseOk(CaseOf(d.db, id)) && Potential(d, id) == 1
    requires !AmountsMatch(d, id) || Reopenable(CaseOf(d.db, id))
    ensures NobodyPasses(d, steps, id) && !SentIsOwed(DeskRun(d, steps), id)
  {
    var first, sent := Deliver(d, id);
    SameCase(sent.db, d.db, id);
    steps := first;
    if SentIsOwed(sent, id) {
      var rest, after := Reopen(sent, id);
      steps := first + rest;
      DeskRunConcat(d, first, rest);
      NobodyPassesConcat(d, first, rest, id);
      GrownIsNotOwed(sent, after, id);
    }
  }

  lemma GoWrong(d: Desk, id: Id) returns (steps: seq<DeskStep>)
    requires id in d.db.bookings && CaseOk(CaseOf(d.db, id)) && Exposed(d, id)
    ensures NobodyPasses(d, steps, id) && !SentIsOwed(DeskRun(d, steps), id)
  {
    if Potential(d, id) >= 2 {
      steps := Drain(d, id);
    } else {
      steps := DeliverAndReopen(d, id);
    }
  }

  /** As things stand, and with nobody else passing the null check, the guest can come to
      be sent something other than the refund row, once, exactly when two refunds are made
      or on their way, or one is and its amount is not the row's or the dispute behind it
      can be re-decided: its remainder is RELEASABLE or FROZEN. */
  lemma MayGoWrongIff(d: Desk, id: Id)
    requires DeskOk(d, id) && id in d.db.bookings
    ensures (exists steps :: NobodyPasses(d, steps, id) && !SentIsOwed(DeskRun(d, steps), id)) <==> Exposed(d, id)
  {
    if Exposed(d, id) {
      var steps := GoWrong(d, id);
    } else {
      forall steps | NobodyPasses(d, steps, id)
        ensures SentIsOwed(DeskRun(d, steps), id)
      {
        UnexposedForever(d, steps, id);
        UnexposedIsOwed(DeskRun(d, steps), id);
      }
    }
  }
}
