/** A booking that was only ever cancelled needs no discipline: its refund is sent at most
    once, and as the row says, however the steps are interleaved and whoever dies. */
module RefundCancellations {
  import opened Wrappers
  import opened Bookings
  import opened CaseInvariants
  import opened Database
  import opened Operations
  import opened Runs
  import opened RefundSending
  import opened RefundCounting
  import opened RefundViews
  import opened RefundRuns

  /** The senders of a booking that have not called the gateway, before or after the null
      check. */
  function Waiting(senders: map<nat, Sender>, id: Id): set<nat> {
    set h | h in senders && senders[h].bookingId == id && !senders[h].ToStore?
  }

  function Chances(d: Desk, id: Id): nat {
    |SentFor(d.sent, id)| + |Waiting(d.senders, id)|
  }

  predicate Undisputed(db: Db, id: Id) {
    id !in db.disputes
  }

  predicate Cancelled(db: Db, id: Id) {
    id in db.bookings && (db.bookings[id].status.CancelledByGuest? || db.bookings[id].status.CancelledByHost?)
  }

  predicate CancelPasses(d: Desk, step: DeskStep, id: Id) {
    && step.CancelPage? && step.bookingId == id && ActionOf(d, step).Some? && Act(d.db, id, step.a).Success?
  }

  lemma WaitingGoto(senders: map<nat, Sender>, h: nat, p: Sender, id: Id)
    ensures |Waiting(senders[h := p], id)|
            == |Waiting(senders, id)| - (if h in Waiting(senders, id) then 1 else 0)
               + (if p.bookingId == id && !p.ToStore? then 1 else 0)
  {
    var before := Waiting(senders, id);
    assert Waiting(senders[h := p], id) == if p.bookingId == id && !p.ToStore? then (before - {h}) + {h}
                                           else before - {h};
  }

  lemma WaitingFinish(senders: map<nat, Sender>, h: nat, id: Id)
    ensures |Waiting(senders - {h}, id)| == |Waiting(senders, id)| - (if h in Waiting(senders, id) then 1 else 0)
  {
    assert Waiting(senders - {h}, id) == Waiting(senders, id) - {h};
  }

  predicate GatePasses(d: Desk, step: DeskStep, id: Id) {
    step.Gate? && step.bookingId == id && GateOpen(d.db, id)
  }

  /** Only an accepted cancellation or the administrator's gate adds a chance to send. */
  lemma ChancesStep(d: Desk, step: DeskStep, id: Id)
    ensures Chances(Advance(d, step), id)
            <= Chances(d, id) + (if CancelPasses(d, step, id) || GatePasses(d, step, id) then 1 else 0)
  {
    match step
    case Gate(h, other) => WaitingGoto(d.senders, h, ToRead(other), id);
    case CancelPage(h, other, _) => WaitingGoto(d.senders, h, ToRead(other), id);
    case Elsewhere(_) =>
    case Die(h) => WaitingFinish(d.senders, h, id);
    case _ => SenderChances(d, step, id);
  }

  lemma SenderChances(d: Desk, step: DeskStep, id: Id)
    requires OfOneSender(step)
    ensures Chances(Advance(d, step), id) <= Chances(d, id)
  {
    var h := step.h;
    WaitingFinish(d.senders, h, id);
    if h in d.senders {
      var p := d.senders[h];
      match p
      case ToRead(other) => WaitingGoto(d.senders, h, ToPay(other, RowAmount(d.db, other)), id);
      case ToPay(other, amount) => WaitingGoto(d.senders, h, ToCall(other, amount), id);
      case ToCall(other, amount) =>
        if step.CallGateway? && step.answer.Some? {
          WaitingGoto(d.senders, h, ToStore(other, amount, step.answer.value), id);
          SentSnoc(d.sent, GatewayRefund(other, amount), id);
        }
      case ToStore(_, _, _) =>
    }
  }

  // ---- The cancelled booking ----

  predicate IsCancelled(c: Case) {
    c.row.status.CancelledByGuest? || c.row.status.CancelledByHost?
  }

  /** A cancellation with no dispute behind it is final. */
  lemma CancelledMove(c: Case, a: CaseAction, c': Case)
    requires CaseNext(c, a) == Success(c') && c.dispute.None?
    ensures IsCancelled(c) ==> IsCancelled(c')
    ensures a.CancellingAsGuest? || a.CancellingAsHost? ==> !IsCancelled(c) && IsCancelled(c')
  {
  }

  lemma CancelledView(db: Db, id: Id)
    requires id in db.bookings
    ensures Cancelled(db, id) <==> IsCancelled(CaseOf(db, id))
    ensures Undisputed(db, id) <==> CaseOf(db, id).dispute.None?
  {
  }

  lemma CancelledStays(d: Desk, step: DeskStep, id: Id)
    requires RowsOk(d.db) && id in d.db.bookings && CaseOk(CaseOf(d.db, id)) && Undisputed(d.db, id)
    ensures id in DbAfter(d, step).bookings
    ensures Cancelled(d.db, id) ==> Cancelled(DbAfter(d, step), id)
  {
    CancelledView(d.db, id);
    if ActionOf(d, step).Some? {
      ActionIsElsewhere(d, step);
      var moved, a := ActionMoves(d.db, ActionOf(d, step).value, id);
      CancelledView(DbAfter(d, step), id);
      if moved {
        CancelledMove(CaseOf(d.db, id), a, CaseOf(DbAfter(d, step), id));
      }
    }
  }

  lemma CancelPassing(d: Desk, step: DeskStep, id: Id)
    requires Undisputed(d.db, id) && CancelPasses(d, step, id)
    ensures id in d.db.bookings && !Cancelled(d.db, id) && Cancelled(DbAfter(d, step), id)
  {
    var a := step.a;
    CancelledView(d.db, id);
    CancelIsAStep(d.db, id, a);
    ActingTakes(d.db, id, a);
    CancelledMove(CaseOf(d.db, id), a, CaseNext(CaseOf(d.db, id), a).value);
    CancelledView(DbAfter(d, step), id);
  }

  predicate Fair(d: Desk, id: Id) {
    Undisputed(d.db, id) ==> Chances(d, id) <= (if Cancelled(d.db, id) then 1 else 0) && AmountsMatch(d, id)
  }

  lemma InFlightWaits(senders: map<nat, Sender>, id: Id)
    ensures InFlight(senders, id) <= Waiting(senders, id)
    ensures |InFlight(senders, id)| <= |Waiting(senders, id)|
  {
    var rest := Waiting(senders, id) - InFlight(senders, id);
    assert Waiting(senders, id) == rest + InFlight(senders, id);
  }

  lemma UndisputedBefore(d: Desk, step: DeskStep, id: Id)
    requires DbOk(d.db) && TablesFollow(d.db, DbAfter(d, step), id) && Undisputed(DbAfter(d, step), id)
    ensures Undisputed(d.db, id)
  {
    if id in d.db.bookings {
      CancelledView(d.db, id);
      CancelledView(DbAfter(d, step), id);
    }
  }

  lemma FairChances(d: Desk, step: DeskStep, id: Id)
    requires DbOk(d.db) && Fair(d, id) && Undisputed(d.db, id)
    ensures Chances(Advance(d, step), id) <= (if Cancelled(DbAfter(d, step), id) then 1 else 0)
  {
    ChancesStep(d, step, id);
    if CancelPasses(d, step, id) {
      CancelPassing(d, step, id);
    } else if id in d.db.bookings {
      CancelledStays(d, step, id);
    }
  }

  lemma CalmRow(before: Db, after: Db, id: Id)
    requires TablesFollow(before, after, id) && id in before.bookings && id in before.refunds && Undisputed(before, id)
    ensures RowAmount(after, id) == RowAmount(before, id)
  {
    CancelledView(before, id);
    RowAmountIsPrior(before, id);
    RowAmountIsPrior(after, id);
  }

  lemma NothingMatches(d: Desk, move: SenderMove, id: Id, after: Desk)
    requires Potential(d, id) == 0 && !move.Passed? && SendersFollow(d, move, id, after)
    ensures AmountsMatch(after, id)
  {
    InFlightIsMine(d.senders, id, if move.Fired? then move.h else 0);
    forall h ensures h !in InFlight(after.senders, id) {
      InFlightIsMine(d.senders, id, h);
      InFlightIsMine(after.senders, id, h);
    }
  }

  lemma FairAmounts(d: Desk, move: SenderMove, id: Id, after: Desk)
    requires Backed(d, id) && Undisputed(d.db, id) && AmountsMatch(d, id) && Chances(d, id) <= 1 && !move.Passed?
    requires SendersFollow(d, move, id, after) && TablesFollow(d.db, after.db, id)
    ensures AmountsMatch(after, id)
  {
    InFlightWaits(d.senders, id);
    if Potential(d, id) == 0 {
      NothingMatches(d, move, id, after);
    } else {
      SomethingIsBacked(d, id);
      CalmRow(d.db, after.db, id);
      StillMatches(d, move, id, after);
    }
  }

  lemma OnlyOneWaits(d: Desk, h: nat, id: Id)
    requires h in Waiting(d.senders, id) && Chances(d, id) <= 1
    ensures Waiting(d.senders, id) == {h} && SentFor(d.sent, id) == []
  {
    var rest := Waiting(d.senders, id) - {h};
    assert |rest| == |Waiting(d.senders, id)| - 1;
    assert Waiting(d.senders, id) == rest + {h};
  }

  lemma PassingMatches(d: Desk, step: DeskStep, id: Id)
    requires PassesNullCheck(d, step, id) && Chances(d, id) <= 1
    ensures AmountsMatch(Advance(d, step), id)
  {
    OnlyOneWaits(d, step.h, id);
    PassedOne(d, step.h, id);
  }

  lemma PassedOne(d: Desk, h: nat, id: Id)
    requires Waiting(d.senders, id) == {h} && SentFor(d.sent, id) == []
    ensures AmountsMatch(Goto(d, h, ToPay(id, RowAmount(d.db, id))), id)
  {
    var after := Goto(d, h, ToPay(id, RowAmount(d.db, id)));
    assert InFlight(after.senders, id) <= Waiting(d.senders, id);
  }

  lemma FairStep(d: Desk, step: DeskStep, id: Id)
    requires DeskOk(d, id) && Fair(d, id)
    ensures DeskOk(Advance(d, step), id) && Fair(Advance(d, step), id)
  {
    OkStep(d, step, id);
    AdvanceDb(d, step);
    if Undisputed(DbAfter(d, step), id) {
      UndisputedBefore(d, step, id);
      FairChances(d, step, id);
      PassingIsOwed(d, step, id);
      if PassesNullCheck(d, step, id) {
        PassingMatches(d, step, id);
      } else {
        FairAmounts(d, MoveOf(d, step, id), id, Advance(d, step));
      }
    }
  }

  lemma {:induction false} FairRun(steps: seq<DeskStep>, id: Id)
    ensures DeskOk(DeskRun(FRESH, steps), id) && Fair(DeskRun(FRESH, steps), id)
  {
    if steps == [] {
      FreshIsOk(id);
      assert Waiting(FRESH.senders, id) == {} == InFlight(FRESH.senders, id);
    } else {
      FairRun(steps[..|steps| - 1], id);
      FairStep(DeskRun(FRESH, steps[..|steps| - 1]), steps[|steps| - 1], id);
    }
  }

  /** In every run, a booking that never had a dispute is refunded at most once, with the
      amount of its refund row, and only after a cancellation. */
  lemma CancelledIsRefundedOnce(steps: seq<DeskStep>, id: Id)
    requires Undisputed(DeskRun(FRESH, steps).db, id)
    ensures var d := DeskRun(FRESH, steps);
            && SentIsOwed(d, id)
            && (SentFor(d.sent, id) != [] ==> Cancelled(d.db, id) && id in d.db.refunds)
  {
    FairRun(steps, id);
  }
}
